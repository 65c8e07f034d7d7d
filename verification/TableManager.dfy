/** The code of pkg/resource/table (hooks.go, sdk.go, manager.go), as methods that edit objects
    in place and call the service, each proved to compute what module TablePass specifies. */
module TableManager {
  import opened Types
  import opened Tags
  import opened TableService
  import opened TablePass
  import TableDelta
  import C = Conditions
  import D = Delta

  /** The custom resource (`resource.ko`). */
  class Resource {
    var spec: TableSpec
    var status: TableStatus

    constructor (spec: TableSpec, status: TableStatus)
      ensures this.spec == spec && this.status == status
    {
      this.spec, this.status := spec, status;
    }

    function View(): Ko
      reads this
    {
      Ko(spec, status)
    }

    method DeepCopy() returns (copy: Resource)
      ensures fresh(copy) && copy.View() == View()
    {
      copy := new Resource(spec, status);
    }
  }

  ghost predicate Returns(r: Resource?, err: Option<Error>, expected: Result<Ko>)
    reads r
  {
    match expected
    case Ok(ko) => r != null && r.View() == ko && err.None?
    case Err(e) => r == null && err == Some(e)
  }

  datatype GetTableInput = GetTableInput(
    tableArn: Option<string>, tableBucketARN: Option<string>, namespace: Option<string>, name: Option<string>)
  {
    function At(): Target {
      Target(tableBucketARN, namespace, name)
    }

    function Request(): Call {
      Get(tableArn, At())
    }
  }

  /** The reply shows the table with the recorded ARN, or, before there is one, the table at the
      declared place; or there is no such table. */
  ghost predicate Answers(s: State, ko: Ko, reply: Result<Response>) {
    if reply.Err? then
      && reply == Err(MISSING)
      && (ArnOf(ko.status).Some? ==> ArnOf(ko.status).value !in s.tables)
    else
      && reply.value.Found? && reply.value.arn in s.tables && reply.value.table == s.tables[reply.value.arn]
      && var place := reply.value.table.place;
         if ArnOf(ko.status).Some? then ArnOf(ko.status) == Some(reply.value.arn)
         else Target(Some(place.bucket), Some(place.namespace), Some(place.name))
              == Target(ko.spec.tableBucketARN, ko.spec.namespace, ko.spec.name)
  }

  lemma GetAnswers(s: State, ko: Ko)
    requires Valid(s)
    ensures Answers(s, ko, Serve(s, GetCall(ko)).1)
  {
    var reply := Serve(s, GetCall(ko)).1;
    if ArnOf(ko.status).None? && reply.Ok? {
      assert NameValid(s, Place(ko.spec.tableBucketARN.value, ko.spec.namespace.value, ko.spec.name.value));
    }
  }

  class ResourceManager {
    const cfg: Config
    const sdkapi: Client

    constructor (cfg: Config, sdkapi: Client)
      ensures this.cfg == cfg && this.sdkapi == sdkapi
    {
      this.cfg, this.sdkapi := cfg, sdkapi;
    }

    // ----- sdk.go -----

    method SetStatusDefaults(ko: Resource)
      modifies ko`status
      ensures ko.status == WithDefaults(cfg, old(ko.status))
    {
      if ko.status.metadata.None? {
        ko.status := ko.status.(metadata := Some(ResourceMetadata(None, None, None, None)));
      }
      var md := ko.status.metadata.value;
      if md.region.None? {
        md := md.(region := Some(cfg.region));
      }
      if md.partition.None? {
        md := md.(partition := Some(cfg.partition));
      }
      if md.ownerAccountID.None? {
        md := md.(ownerAccountID := Some(cfg.account));
      }
      ko.status := ko.status.(metadata := Some(md));
      if ko.status.conditions.None? {
        ko.status := ko.status.(conditions := Some([]));
      }
    }

    /** newDescribeRequestPayload: whatever the object has. */
    method NewDescribeRequestPayload(r: Resource) returns (input: GetTableInput)
      ensures input == GetTableInput(ArnOf(r.status), r.spec.tableBucketARN, r.spec.namespace, r.spec.name)
    {
      input := GetTableInput(None, None, None, None);
      if r.spec.name.Some? {
        input := input.(name := r.spec.name);
      }
      if r.spec.namespace.Some? {
        input := input.(namespace := r.spec.namespace);
      }
      if r.status.metadata.Some? && r.status.metadata.value.arn.Some? {
        input := input.(tableArn := r.status.metadata.value.arn);
      }
      if r.spec.tableBucketARN.Some? {
        input := input.(tableBucketARN := r.spec.tableBucketARN);
      }
    }

    /** The request sdkFind sends: four fields are filled in, and then either the ARN or the other
        three are cleared. A table is never named in both ways, which the service would turn down;
        once the ARN is known the reply, if any, is that table whatever its name is by now; and
        before, it is a table at the declared place. */
    method DescribeRequest(r: Resource) returns (input: GetTableInput)
      ensures input.tableArn.None? || input.At() == NOWHERE
      ensures forall s: State :: Valid(s) ==> Answers(s, r.View(), Serve(s, input.Request()).1)
      ensures input.Request() == GetCall(r.View())
    {
      input := NewDescribeRequestPayload(r);
      if r.status.metadata.Some? && r.status.metadata.value.arn.Some? {
        input := input.(tableArn := r.status.metadata.value.arn);
        input := input.(tableBucketARN := None);
        input := input.(namespace := None);
        input := input.(name := None);
      } else {
        input := input.(tableArn := None);
      }
      forall s: State | Valid(s)
        ensures Answers(s, r.View(), Serve(s, input.Request()).1)
      {
        GetAnswers(s, r.View());
      }
    }

    method MergeOutput(ko: Resource, arn: string, t: TableService.Table, token: Option<string>)
      modifies ko
      ensures ko.View() == Merged(cfg, old(ko.View()), arn, t, token)
    {
      ko.status := ko.status.(createdAt := t.facts.createdAt);
      ko.spec := ko.spec.(format := NonEmpty(t.facts.format));
      ko.spec := ko.spec.(metadataLocation := t.location);
      ko.status := ko.status.(modifiedAt := t.facts.modifiedAt);
      ko.spec := ko.spec.(name := Some(t.place.name));
      if ko.status.metadata.None? {
        ko.status := ko.status.(metadata := Some(ResourceMetadata(None, None, None, None)));
      }
      ko.status := ko.status.(metadata := Some(ko.status.metadata.value.(arn := Some(arn))));
      ko.status := ko.status.(tableType := NonEmpty(t.facts.tableType));
      ko.status := ko.status.(versionToken := token);
      ko.status := ko.status.(warehouseLocation := t.facts.warehouse);
      SetStatusDefaults(ko);
      ko.spec := ko.spec.(namespace := Some(t.place.namespace));
      if t.facts.namespaceID.Some? {
        ko.status := ko.status.(namespaceID := t.facts.namespaceID);
      }
      if t.facts.tableBucketID.Some? {
        ko.status := ko.status.(tableBucketID := t.facts.tableBucketID);
      }
    }

    method SdkFind(r: Resource) returns (latest: Resource?, err: Option<Error>)
      modifies sdkapi
      ensures sdkapi.world == Find(sdkapi.env, cfg, old(sdkapi.world), r.View()).0
      ensures Returns(latest, err, Find(sdkapi.env, cfg, old(sdkapi.world), r.View()).1)
      ensures latest != null ==> fresh(latest)
    {
      hide Invoke, Merged;
      var input := DescribeRequest(r);
      var got := sdkapi.Do(input.Request());
      if got.Err? {
        if IsApiNotFound(got.error) {
          return null, Some(NOT_FOUND);
        }
        return null, Some(got.error);
      }
      match got.value {
        case Found(arn, t, token) =>
          var ko := r.DeepCopy();
          MergeOutput(ko, arn, t, token);
          assert ArnOf(ko.status) == Some(arn) by { MergedArn(cfg, r.View(), arn, t, token); }
          ghost var w1, merged := sdkapi.world, ko.View();
          err := SetResourceTags(ko);
          ghost var listed := Invoke(sdkapi.env, w1, ListTags(arn)).1;
          assert listed.Ok? && listed.value.TagsOf? ==>
            ko.View() == Observation(cfg, r.View(), arn, t, token, listed.value.tags);
          if err.Some? {
            return null, err;
          }
          latest := ko;
        case _ =>
          return null, Some(MISSING);
      }
    }

    /** setResourceTags: GetTable does not return tags. */
    method SetResourceTags(ko: Resource) returns (err: Option<Error>)
      modifies sdkapi, ko`spec
      ensures ArnOf(ko.status).None? ==> err.None? && sdkapi.world == old(sdkapi.world) && ko.spec == old(ko.spec)
      ensures ArnOf(ko.status).Some? ==>
        var (w, listed) := Invoke(sdkapi.env, old(sdkapi.world), ListTags(ArnOf(ko.status).value));
        && sdkapi.world == w
        && (match listed
            case Err(e) => err == Some(e)
            case Ok(TagsOf(tags)) => err.None? && ko.spec == old(ko.spec).(tags := FromService(tags))
            case Ok(_) => err == Some(MISSING))
    {
      hide Invoke;
      if ArnOf(ko.status).None? {
        return None;
      }
      var listed := sdkapi.Do(ListTags(ArnOf(ko.status).value));
      if listed.Err? {
        return Some(listed.error);
      }
      match listed.value {
        case TagsOf(tags) =>
          if |tags| > 0 {
            ko.spec := ko.spec.(tags := FromAck(tags));
          } else {
            ko.spec := ko.spec.(tags := None);
          }
          return None;
        case _ =>
          return Some(MISSING);
      }
    }

    // ----- manager.go -----

    method EnsureTags(r: Resource)
      modifies r`spec
      ensures r.View() == Desired(cfg, old(r.View()))
    {
      var resourceTags, keyOrder := ConvertToOrderedACKTags(r.spec.tags);
      var merged := new TagStore(Merge(resourceTags.m, cfg.defaultTags));
      var tags := FromACKTags(merged, keyOrder);
      r.spec := r.spec.(tags := tags);
    }

    method MirrorAWSTags(a: Resource, b: Resource?)
      modifies a`spec
      ensures b == null ==> a.spec == old(a.spec)
      ensures b != null ==> a.View() == Mirror(old(a.View()), old(b.View()))
    {
      if b == null {
        return;
      }
      var desiredTags, keyOrder := ConvertToOrderedACKTags(a.spec.tags);
      var latestTags, _ := ConvertToOrderedACKTags(b.spec.tags);
      SyncAWSTags(desiredTags, latestTags);
      var tags := FromACKTags(desiredTags, keyOrder);
      a.spec := a.spec.(tags := tags);
    }

    method OnError(r: Resource, err: Error) returns (r1: Resource, e: Error)
      ensures fresh(r1) && r1.View() == Concluded(cfg, r.View(), Some(err))
      ensures Some(e) == Reported(r1.View(), Some(err))
    {
      r1 := r.DeepCopy();
      SetStatusDefaults(r1);
      var conditions;
      conditions, e := C.OnError(r.status.conditions, err);
      r1.status := r1.status.(conditions := conditions);
    }

    method OnSuccess(r: Resource) returns (r1: Resource)
      ensures fresh(r1) && r1.View() == Concluded(cfg, r.View(), None)
    {
      r1 := r.DeepCopy();
      var updated := C.UpdateConditions(r.status.conditions, None);
      if updated.Some? {
        SetStatusDefaults(r1);
        r1.status := r1.status.(conditions := updated);
      }
    }

    /** ReadOne: the read also writes into the object it is given. */
    method ReadOne(r: Resource) returns (res: Resource, err: Option<Error>)
      modifies sdkapi, r`spec
      ensures var (w, found) := Find(sdkapi.env, cfg, old(sdkapi.world), old(r.View()));
              && sdkapi.world == w && fresh(res) && (err.None? <==> found.Ok?)
              && (match found
                  case Ok(observed) =>
                    res.View() == Concluded(cfg, observed, None) && r.View() == Mirror(old(r.View()), res.View())
                  case Err(e) =>
                    && res.View() == Concluded(cfg, old(r.View()), Some(e)) && err == Reported(res.View(), Some(e))
                    && r.View() == old(r.View()))
    {
      hide Find, C.Concluded, MirroredTags;
      var observed;
      observed, err := SdkFind(r);
      MirrorAWSTags(r, observed);
      if err.Some? {
        var e;
        res, e := OnError(r, err.value);
        return res, Some(e);
      }
      res := OnSuccess(observed);
    }

    /** Update: customUpdateTable, with its outcome in the conditions. */
    method Update(desired: Resource, latest: Resource, delta: D.Delta) returns (res: Resource, err: Option<Error>)
      modifies sdkapi
      ensures var (w, e) := Execute(sdkapi.env, old(sdkapi.world),
                                    UpdatePlan(desired.View(), latest.View(), TableDelta.FieldsIn(delta)));
              && sdkapi.world == w && fresh(res) && err == Reported(res.View(), e) && (err.None? <==> e.None?)
              && res.View() == if e.Some? then Concluded(cfg, latest.View(), e)
                               else Concluded(cfg, Ko(desired.spec, latest.status), None)
    {
      hide C.Concluded, TableDelta.FieldsIn, UpdatePlan, Execute;
      var updated;
      updated, err := CustomUpdateTable(desired, latest, delta);
      if err.Some? {
        var e;
        res, e := OnError(latest, err.value);
        return res, Some(e);
      }
      res := OnSuccess(updated);
    }

    // ----- hooks.go -----

    method Rename(desired: Resource, latest: Resource) returns (err: Option<Error>)
      modifies sdkapi
      ensures (sdkapi.world, err) == Execute(sdkapi.env, old(sdkapi.world), NamePlan(desired.View(), latest.View()))
    {
      hide Invoke;
      var token: Option<string> := None;
      if latest.status.versionToken.Some? {
        token := latest.status.versionToken;
      }
      err := Send(RenameTable(Target(latest.spec.tableBucketARN, latest.spec.namespace, latest.spec.name),
                              desired.spec.name, token));
    }

    method UpdateMetadataLocation(desired: Resource, latest: Resource) returns (err: Option<Error>)
      modifies sdkapi
      ensures (sdkapi.world, err) == Execute(sdkapi.env, old(sdkapi.world), LocationPlan(desired.View(), latest.View()))
    {
      if desired.spec.metadataLocation.None? {
        return None;
      }
      var token: Option<string> := None;
      if latest.status.versionToken.Some? {
        token := latest.status.versionToken;
      }
      err := Send(UpdateLocation(Target(latest.spec.tableBucketARN, latest.spec.namespace, latest.spec.name),
                                 desired.spec.metadataLocation.value, token));
    }

    method SyncTags(desired: Resource, latest: Resource, arn: string) returns (err: Option<Error>)
      requires ArnOf(latest.status) == Some(arn)
      modifies sdkapi
      ensures (sdkapi.world, err) == Execute(sdkapi.env, old(sdkapi.world), TagPlan(desired.View(), latest.View()))
    {
      hide ToAdd, ToRemove, ToAck, Invoke, Execute;
      var from, _ := ConvertToOrderedACKTags(latest.spec.tags);
      var to, _ := ConvertToOrderedACKTags(desired.spec.tags);
      var added, removed := TagCalls(from.m, to.m);
      ghost var first := if removed == {} then [] else [UntagTable(arn, removed)];
      ghost var second := if added == map[] then [] else [TagTable(arn, added)];
      assert TagPlan(desired.View(), latest.View()) == first + second;
      ExecuteAppend(sdkapi.env, sdkapi.world, first, second);
      NothingSent(sdkapi.env);
      err := None;
      if |removed| > 0 {
        err := Send(UntagTable(arn, removed));
        if err.Some? {
          return;
        }
      }
      if |added| > 0 {
        err := Send(TagTable(arn, added));
      }
    }

    /** One write, of whose reply only the error matters. */
    method Send(call: Call) returns (err: Option<Error>)
      modifies sdkapi
      ensures (sdkapi.world, err) == Execute(sdkapi.env, old(sdkapi.world), [call])
    {
      hide Invoke;
      assert [call][1..] == [];
      var reply := sdkapi.Do(call);
      err := if reply.Err? then Some(reply.error) else None;
    }

    /** customUpdateTable: the object it returns is new, and neither `desired` nor `latest` is
        touched. */
    method CustomUpdateTable(desired: Resource, latest: Resource, delta: D.Delta)
      returns (updated: Resource?, err: Option<Error>)
      modifies sdkapi
      ensures (sdkapi.world, err) == Execute(sdkapi.env, old(sdkapi.world),
        UpdatePlan(desired.View(), latest.View(), TableDelta.FieldsIn(delta)))
      ensures Returns(updated, err, if err.Some? then Err(err.value) else Ok(Ko(desired.spec, latest.status)))
      ensures updated != null ==> fresh(updated)
    {
      hide Execute, NamePlan, LocationPlan, TagPlan;
      ghost var env, w0, fields := sdkapi.env, sdkapi.world, TableDelta.FieldsIn(delta);
      ghost var p1 := if D.Name in fields then NamePlan(desired.View(), latest.View()) else [];
      ghost var p2 := if D.MetadataLocation in fields then LocationPlan(desired.View(), latest.View()) else [];
      ghost var p3 := if D.Tags in fields then TagPlan(desired.View(), latest.View()) else [];
      ExecuteAppend(env, w0, p1 + p2, p3);
      ExecuteAppend(env, w0, p1, p2);
      NothingSent(env);
      var ko := desired.DeepCopy();
      ko.status := latest.status;
      err := None;
      if D.DifferentAt(delta, [D.Spec, D.Name]) {
        err := Rename(desired, latest);
        if err.Some? {
          return null, err;
        }
      }
      if D.DifferentAt(delta, [D.Spec, D.MetadataLocation]) {
        err := UpdateMetadataLocation(desired, latest);
        if err.Some? {
          return null, err;
        }
      }
      if D.DifferentAt(delta, [D.Spec, D.Tags]) {
        if ArnOf(ko.status).Some? {
          err := SyncTags(desired, latest, ArnOf(ko.status).value);
          if err.Some? {
            return null, err;
          }
        } else {
          NoArnNoTags(desired.View(), latest.View());
        }
      }
      updated := ko;
    }

    /** One pass over the stored object, in the order in which the runtime drives the methods
        above. */
    method Reconcile(stored: Resource) returns (next: Resource, err: Option<Error>)
      modifies sdkapi
      ensures var pass := Pass(sdkapi.env, cfg, old(sdkapi.world), stored.View());
              sdkapi.world == pass.world && next.View() == pass.stored && err == pass.reported
      ensures fresh(next)
    {
      hide Find, Execute, TableDelta.Differences, TableDelta.Normal, EnsuredTags, MirroredTags, C.Concluded, Reported,
        UpdatePlan;
      var desired := stored.DeepCopy();
      next := stored.DeepCopy();
      EnsureTags(desired);
      var latest;
      latest, err := ReadOne(desired);
      if err.Some? {
        next.status := latest.status;
        return;
      }
      var delta := TableDelta.NewResourceDelta(desired.spec, latest.spec);
      TableDelta.NoDifference(desired.spec, latest.spec);
      var result := latest;
      if delta != [] {
        result, err := Update(desired, latest, delta);
      }
      next.status := result.status;
      assert err.None? ==> Reported(result.View(), None) == None by { NoneReported(result.View()); }
    }
  }

  lemma NoneReported(ko: Ko)
    ensures Reported(ko, None) == None
  {
  }

  lemma NothingSent(env: Env)
    ensures forall w :: Execute(env, w, []) == (w, None)
  {
  }

  lemma NoArnNoTags(d: Ko, l: Ko)
    requires ArnOf(l.status).None?
    ensures TagPlan(d, l) == []
  {
  }

  lemma MergedArn(cfg: Config, ko: Ko, arn: string, t: TableService.Table, token: Option<string>)
    ensures ArnOf(Merged(cfg, ko, arn, t, token).status) == Some(arn)
  {
  }
}
