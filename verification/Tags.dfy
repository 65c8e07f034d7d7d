/** The tag algebra of pkg/resource/table_bucket/tags.go and of the tag methods of manager.go:
    the hub map `acktags.Tags`, which the Go code edits in place, and the set of calls that
    syncTags derives from it. The copies in pkg/resource/table are identical. */
module Tags {
  import opened Types

  type AckTags = map<string, string>

  const AWS_PREFIX := "aws:"

  predicate IsAws(key: string) {
    AWS_PREFIX <= key
  }

  // ----- Values -----

  function ToAck(tags: TagMap): AckTags {
    var m := Entries(tags);
    map k | k in m :: m[k].GetOr("")
  }

  function FromAck(tags: AckTags): TagMap {
    Some(map k | k in tags :: Some(tags[k]))
  }

  /** `aws.StringMap` on a non-empty response, nil otherwise. */
  function FromService(tags: AckTags): TagMap {
    if |tags| > 0 then FromAck(tags) else None
  }

  /** `acktags.Merge`: the existing tags win over the controller's defaults. */
  function Merge(existing: AckTags, defaults: AckTags): AckTags {
    defaults + existing
  }

  function Mirrored(desired: AckTags, latest: AckTags): AckTags {
    desired + (map k | k in latest && IsAws(k) :: latest[k])
  }

  function WithoutSystem(tags: AckTags, systemTags: seq<string>): AckTags {
    map k | k in tags && !IsAws(k) && k !in systemTags :: tags[k]
  }

  function EnsuredTags(tags: TagMap, defaults: AckTags): TagMap {
    FromAck(Merge(ToAck(tags), defaults))
  }

  function MirroredTags(desired: TagMap, latest: TagMap): TagMap {
    FromAck(Mirrored(ToAck(desired), ToAck(latest)))
  }

  function FilteredTags(tags: TagMap, systemTags: seq<string>): TagMap {
    FromAck(WithoutSystem(ToAck(tags), systemTags))
  }

  /** `ackcompare.GetTagsDifference`, as differences of sets of pairs. */
  function Minus(a: AckTags, b: AckTags): AckTags {
    map k | k in a && !(k in b && b[k] == a[k]) :: a[k]
  }

  /** The tags TagResource is called with. */
  function ToAdd(from: AckTags, to: AckTags): AckTags {
    Minus(to, from)
  }

  /** The keys UntagResource is called with. */
  function ToRemove(from: AckTags, to: AckTags): set<string> {
    Minus(from, to).Keys - ToAdd(from, to).Keys
  }

  // ----- Code -----

  class TagStore {
    var m: AckTags

    constructor (m: AckTags)
      ensures this.m == m
    {
      this.m := m;
    }
  }

  method ConvertToOrderedACKTags(tags: TagMap) returns (result: TagStore, keyOrder: seq<string>)
    ensures fresh(result) && result.m == ToAck(tags) && keyOrder == []
  {
    result := new TagStore(map[]);
    keyOrder := [];
    var entries := Entries(tags);
    if |entries| == 0 {
      return;
    }
    var order := RangeKeys(entries);
    for i := 0 to |order|
      invariant fresh(result)
      invariant result.m == map k | k in order[..i] :: entries[k].GetOr("")
    {
      match entries[order[i]]
      case None => result.m := result.m[order[i] := ""];
      case Some(v) => result.m := result.m[order[i] := v];
    }
    assert order[..|order|] == order;
  }

  method FromACKTags(tags: TagStore, keyOrder: seq<string>) returns (result: TagMap)
    ensures result == FromAck(tags.m)
  {
    var r: map<string, Option<string>> := map[];
    var order := RangeKeys(tags.m);
    for i := 0 to |order|
      invariant r == map k | k in order[..i] :: Some(tags.m[k])
    {
      r := r[order[i] := Some(tags.m[order[i]])];
    }
    assert order[..|order|] == order;
    assert r == map k | k in tags.m :: Some(tags.m[k]);
    result := Some(r);
  }

  method IgnoreSystemTags(tags: TagStore, systemTags: seq<string>)
    modifies tags
    ensures tags.m == WithoutSystem(old(tags.m), systemTags)
  {
    var order := RangeKeys(tags.m);
    for i := 0 to |order|
      invariant tags.m == map k | k in old(tags.m) &&
                            !(k in order[..i] && (IsAws(k) || k in systemTags)) :: old(tags.m)[k]
    {
      var k := order[i];
      if IsAws(k) || k in systemTags {
        tags.m := tags.m - {k};
      }
    }
    assert order[..|order|] == order;
  }

  method SyncAWSTags(a: TagStore, b: TagStore)
    requires a != b
    modifies a
    ensures a.m == Mirrored(old(a.m), b.m)
  {
    hide Mirrored, IsAws, Enumerates;
    ghost var was, latest := a.m, b.m;
    var order := RangeKeys(b.m);
    EnumeratesAll(order, b.m);
    for i := 0 to |order|
      invariant b.m == latest && a.m == Overwritten(was, latest, order[..i])
    {
      var k := order[i];
      assert order[..i + 1][..i] == order[..i];
      if IsAws(k) {
        a.m := a.m[k := b.m[k]];
      }
    }
    assert order[..|order|] == order;
    OverwrittenAll(was, latest, order);
  }

  lemma EnumeratesAll(order: seq<string>, m: AckTags)
    requires Enumerates(order, m.Keys)
    ensures forall k :: k in order <==> k in m
  {
  }

  lemma OverwrittenAll(a: AckTags, b: AckTags, order: seq<string>)
    requires forall k :: k in order <==> k in b
    ensures Overwritten(a, b, order) == Mirrored(a, b)
  {
    OverwrittenIs(a, b, order);
  }

  ghost function Overwritten(a: AckTags, b: AckTags, keys: seq<string>): AckTags
    requires forall k :: k in keys ==> k in b
  {
    if keys == [] then a
    else
      var k := keys[|keys| - 1];
      var before := Overwritten(a, b, keys[..|keys| - 1]);
      if IsAws(k) then before[k := b[k]] else before
  }

  lemma {:induction false} OverwrittenIs(a: AckTags, b: AckTags, keys: seq<string>)
    requires forall k :: k in keys ==> k in b
    ensures forall k :: k in Overwritten(a, b, keys) <==> k in a || (k in keys && IsAws(k))
    ensures forall k :: k in Overwritten(a, b, keys) ==>
      Overwritten(a, b, keys)[k] == if k in keys && IsAws(k) then b[k] else a[k]
  {
    if keys != [] {
      var init, last := keys[..|keys| - 1], keys[|keys| - 1];
      OverwrittenIs(a, b, init);
      assert forall k :: k in keys <==> k in init || k == last;
    }
  }

  /** The two argument sets of syncTags (hooks.go): the in-place deletion of value changes
      from `removed`, whatever order the map is visited in. */
  method TagCalls(from: AckTags, to: AckTags) returns (added: AckTags, removed: set<string>)
    ensures added == ToAdd(from, to) && removed == ToRemove(from, to)
  {
    added := Minus(to, from);
    var gone := Minus(from, to);
    hide Minus;
    var order := RangeKeys(gone);
    for i := 0 to |order|
      invariant gone.Keys == Minus(from, to).Keys - set k | k in order[..i] && k in added
    {
      if order[i] in added {
        gone := gone - {order[i]};
      }
    }
    assert order[..|order|] == order;
    removed := gone.Keys;
  }

  // ----- What it means that two tag fields differ -----

  /** The same keys with the same values, nil meaning "". */
  ghost predicate SameTags(a: TagMap, b: TagMap) {
    var m, n := if a.Some? then a.value else map[], if b.Some? then b.value else map[];
    && m.Keys == n.Keys
    && forall k :: k in m ==>
         (if m[k].Some? then m[k].value else "") == (if n[k].Some? then n[k].value else "")
  }

  lemma SameTagsIff(a: TagMap, b: TagMap)
    ensures ToAck(a) == ToAck(b) <==> SameTags(a, b)
  {
    var x, y := ToAck(a), ToAck(b);
    var m, n := if a.Some? then a.value else map[], if b.Some? then b.value else map[];
    assert x.Keys == m.Keys && y.Keys == n.Keys;
    assert forall k :: k in m ==> x[k] == if m[k].Some? then m[k].value else "";
    assert forall k :: k in n ==> y[k] == if n[k].Some? then n[k].value else "";
  }

  // ----- What each operation leaves, entry by entry -----

  /** EnsureTags: a declared tag keeps its value, nil becoming ""; a controller tag is added only
      where no tag of that key is declared. */
  lemma EnsuredTagsAre(tags: TagMap, defaults: AckTags)
    ensures var declared := if tags.Some? then tags.value else map[];
            var r := EnsuredTags(tags, defaults);
            && r.Some? && r.value.Keys == declared.Keys + defaults.Keys
            && forall k :: k in r.value ==>
                 r.value[k] == if k !in declared then Some(defaults[k])
                               else if declared[k].Some? then declared[k] else Some("")
  {
  }

  /** mirrorAWSTags: the observed "aws:" tags are taken over, every other tag stays. */
  lemma MirroredTagsAre(desired: TagMap, latest: TagMap)
    ensures var d, l := if desired.Some? then desired.value else map[], if latest.Some? then latest.value else map[];
            var r := MirroredTags(desired, latest);
            && r.Some?
            && (forall k :: k in r.value <==> k in d || (k in l && "aws:" <= k))
            && forall k :: k in r.value ==>
                 var from := if k in l && "aws:" <= k then l[k] else d[k];
                 r.value[k] == if from.Some? then from else Some("")
  {
  }

  /** FilterSystemTags removes exactly the "aws:" tags and the listed ones: every tag of the user
      survives with its value. */
  lemma FilteredTagsAre(tags: TagMap, systemTags: seq<string>)
    ensures var before := if tags.Some? then tags.value else map[];
            var r := FilteredTags(tags, systemTags);
            && r.Some?
            && (forall k :: k in r.value <==> k in before && !("aws:" <= k) && k !in systemTags)
            && forall k :: k in r.value ==> r.value[k] == if before[k].Some? then before[k] else Some("")
  {
  }

  /** The tags a read puts into the spec: all of the service's, nil for none. */
  lemma FromServiceIs(tags: AckTags)
    ensures tags == map[] <==> FromService(tags) == None
    ensures FromService(tags).Some? ==>
      && FromService(tags).value.Keys == tags.Keys
      && forall k :: k in tags ==> FromService(tags).value[k] == Some(tags[k])
  {
  }

  /** Untag what is gone; tag what is new or has another value. */
  lemma TagCallsAre(from: AckTags, to: AckTags)
    ensures forall k :: k in ToRemove(from, to) <==> k in from && k !in to
    ensures forall k :: k in ToAdd(from, to) <==> k in to && (k !in from || from[k] != to[k])
    ensures forall k :: k in ToAdd(from, to) ==> ToAdd(from, to)[k] == to[k]
  {
  }

  // ----- syncTags is correct and safe at every intermediate state -----

  lemma SyncTagsReachesDesired(observed: AckTags, desired: AckTags)
    ensures observed - ToRemove(observed, desired) + ToAdd(observed, desired) == desired
    ensures ToRemove(observed, desired) !! ToAdd(observed, desired).Keys
    ensures forall k :: k in observed && k in desired ==> k in observed - ToRemove(observed, desired)
    ensures ToRemove(observed, desired) == {} && ToAdd(observed, desired) == map[] <==> observed == desired
  {
  }

  /** With the AWS tags mirrored into the desired set, no call names an observed "aws:" key. */
  lemma AwsTagsAreNeverTouched(desired: AckTags, observed: AckTags, key: string)
    requires IsAws(key) && key in observed
    ensures key !in ToRemove(observed, Mirrored(desired, observed))
    ensures key !in ToAdd(observed, Mirrored(desired, observed))
  {
  }

  // ----- The measure of a tag set that is still to be synchronised -----

  /** Same presence and same value at `k`. */
  predicate Agree(a: AckTags, b: AckTags, k: string) {
    if k in a then k in b && a[k] == b[k] else k !in b
  }

  /** The keys at which the service's tags are not yet the target's. An AWS tag follows the
      service, so it is only pending while the service has no value for it. */
  function Pending(target: AckTags, service: AckTags): set<string> {
    set k | k in target.Keys + service.Keys &&
            if IsAws(k) then k in target && k !in service else !Agree(target, service, k)
  }

  lemma PendingIsTheDifference(target: AckTags, service: AckTags)
    ensures Pending(target, service)
         == ToRemove(service, Mirrored(target, service)) + ToAdd(service, Mirrored(target, service)).Keys
    ensures Pending(target, service) == {} <==> Mirrored(target, service) == service
  {
    var to := Mirrored(target, service);
    forall k
      ensures k in Pending(target, service) <==> k in ToRemove(service, to) + ToAdd(service, to).Keys
    {
      assert k in Minus(service, to) <==> k in service && !Agree(to, service, k);
      assert k in ToAdd(service, to) <==> k in to && !Agree(to, service, k);
    }
    SyncTagsReachesDesired(service, to);
  }

  /** Each of the two calls makes exactly the keys it names agree. */
  lemma TagCallsShrinkPending(target: AckTags, service: AckTags)
    ensures var removed := ToRemove(service, Mirrored(target, service));
            Pending(target, service - removed) == Pending(target, service) - removed
    ensures var removed := ToRemove(service, Mirrored(target, service));
            var added := ToAdd(service, Mirrored(target, service));
            Pending(target, service - removed + added) == {}
    ensures var added := ToAdd(service, Mirrored(target, service));
            Pending(target, service + added) == Pending(target, service) - added.Keys
  {
    var to := Mirrored(target, service);
    var removed, added := ToRemove(service, to), ToAdd(service, to);
    PendingIsTheDifference(target, service);
    SyncTagsReachesDesired(service, to);
    forall k
      ensures k in Pending(target, service - removed) <==> k in Pending(target, service) - removed
      ensures k in Pending(target, service + added) <==> k in Pending(target, service) - added.Keys
      ensures k !in Pending(target, to)
    {
      assert k in Minus(service, to) <==> k in service && !Agree(to, service, k);
      assert k in added <==> k in to && !Agree(to, service, k);
    }
  }

  // ----- System tags never leak into the spec -----

  datatype TagStep = Ensure(defaults: AckTags) | MirrorFrom(latest: TagMap)

  function TagStepped(tags: TagMap, step: TagStep): TagMap {
    match step
    case Ensure(defaults) => EnsuredTags(tags, defaults)
    case MirrorFrom(latest) => MirroredTags(tags, latest)
  }

  function TagsAfter(tags: TagMap, steps: seq<TagStep>): TagMap {
    if steps == [] then tags else TagStepped(TagsAfter(tags, steps[..|steps| - 1]), steps[|steps| - 1])
  }

  lemma FromAckToAck(tags: AckTags)
    ensures ToAck(FromAck(tags)) == tags
  {
  }

  lemma FromServiceToAck(tags: AckTags)
    ensures ToAck(FromService(tags)) == tags
  {
  }

  lemma {:induction false} FilterForgetsControllerTags(tags: TagMap, steps: seq<TagStep>, systemTags: seq<string>)
    requires forall s :: s in steps && s.Ensure? ==> forall k :: k in s.defaults ==> IsAws(k) || k in systemTags
    ensures FilteredTags(TagsAfter(tags, steps), systemTags) == FilteredTags(tags, systemTags)
  {
    if steps != [] {
      var before, last := TagsAfter(tags, steps[..|steps| - 1]), steps[|steps| - 1];
      FilterForgetsControllerTags(tags, steps[..|steps| - 1], systemTags);
      var kept := WithoutSystem(ToAck(TagStepped(before, last)), systemTags);
      assert kept == WithoutSystem(ToAck(before), systemTags) by {
        assert last in steps;
        forall k
          ensures k in kept <==> k in WithoutSystem(ToAck(before), systemTags)
          ensures k in kept ==> kept[k] == ToAck(before)[k]
        {
        }
      }
    }
  }

  /** Filtering is itself stable, so a filtered spec carries no system tag into the next pass. */
  lemma FilterIsIdempotent(tags: TagMap, systemTags: seq<string>)
    ensures FilteredTags(FilteredTags(tags, systemTags), systemTags) == FilteredTags(tags, systemTags)
    ensures forall k :: k in Entries(FilteredTags(tags, systemTags)) ==> !IsAws(k) && k !in systemTags
  {
    var kept := WithoutSystem(ToAck(tags), systemTags);
    FromAckToAck(kept);
    assert WithoutSystem(kept, systemTags) == kept;
  }
}
