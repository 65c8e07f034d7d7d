/** What the conditions of a stored table bucket or table say after a pass. */
module PassConditions {
  import opened Types
  import opened Tags
  import opened BucketService
  import opened BucketPass
  import opened Conditions
  import T = TablePass
  import S = TableService
  import TableDelta

  function Listed(status: TableBucketStatus): seq<Condition> {
    status.conditions.GetOr([])
  }

  /** At most one Terminal and at most one Recoverable condition. */
  ghost predicate Tidy(conditions: seq<Condition>) {
    AtMostOne(conditions, CondTerminal) && AtMostOne(conditions, CondRecoverable)
  }

  ghost predicate Calm(conditions: seq<Condition>) {
    !IsRaised(conditions, CondTerminal) && !IsRaised(conditions, CondRecoverable)
  }

  lemma {:induction false} ClearedIsDown(conditions: seq<Condition>, kind: ConditionType)
    requires AtMostOne(conditions, kind)
    ensures !IsRaised(Cleared(conditions, kind), kind)
    ensures forall k :: k != kind && !IsRaised(conditions, k) ==> !IsRaised(Cleared(conditions, kind), k)
  {
    var cleared := Cleared(conditions, kind);
    match LastOf(conditions, kind) {
      case None =>
        forall i | 0 <= i < |conditions|
          ensures conditions[i].kind != kind
        {
          assert conditions[i] in conditions;
        }
      case Some(n) =>
        assert forall i :: 0 <= i < |conditions| && conditions[i].kind == kind ==> i == n;
        assert forall i :: 0 <= i < |cleared| && i != n ==> cleared[i] == conditions[i];
    }
  }

  lemma SuccessCalms(conditions: Option<seq<Condition>>)
    requires Tidy(conditions.GetOr([]))
    ensures var now := Conditions.Concluded(conditions, None).GetOr([]); Tidy(now) && Calm(now)
  {
    var was := conditions.GetOr([]);
    NextKeepsOthers(was, None, CondTerminal);
    NextKeepsOthers(was, None, CondRecoverable);
    var cleared := Cleared(was, CondTerminal);
    ClearedIsDown(was, CondTerminal);
    StepKeepsAtMostOne(was, CondTerminal, "", CondRecoverable);
    ClearedIsDown(cleared, CondRecoverable);
    var now := Next(was, None);
    NothingToSay(was, CondTerminal);
    NothingToSay(cleared, CondRecoverable);
    hide Cleared, IsRaised, AtMostOne, LastOf;
    assert Calm(now) && Tidy(now);
  }

  /** Without a condition of a kind there is nothing to clear. */
  lemma NothingToSay(conditions: seq<Condition>, kind: ConditionType)
    ensures !Has(conditions, kind) ==> Cleared(conditions, kind) == conditions
    ensures forall k :: Has(Cleared(conditions, kind), k) <==> Has(conditions, k)
  {
    KindsCleared(conditions, kind);
  }

  lemma FailureStaysTidy(conditions: Option<seq<Condition>>, e: Error)
    requires Tidy(conditions.GetOr([]))
    ensures var now := Conditions.Concluded(conditions, Some(e)).GetOr([]);
            Tidy(now) && (IsRaised(now, CondTerminal) <==> IsTerminal(e))
  {
    var was := conditions.GetOr([]);
    NextHasOne(was, e);
    TerminalIffRaised(was, e);
    NextKeepsOthers(was, Some(e), CondTerminal);
    NextKeepsOthers(was, Some(e), CondRecoverable);
    hide Next, AtMostOne, IsRaised;
  }

  /** Setting a condition of one kind says nothing about another. */
  lemma {:induction false} SetKeepsOthers(
    conditions: seq<Condition>, kind: ConditionType, status: ConditionStatus, message: Option<string>, k: ConditionType)
    requires k != kind
    ensures AtMostOne(conditions, k) ==> AtMostOne(Set(conditions, kind, status, message), k)
    ensures IsRaised(Set(conditions, kind, status, message), k) ==> IsRaised(conditions, k)
  {
    var n := FirstOf(conditions, kind);
    SetIsAt(conditions, kind, status, message);
    var after := Set(conditions, kind, status, message);
    assert forall i :: 0 <= i < |after| && after[i].kind == k ==> i < |conditions| && conditions[i] == after[i];
  }

  function FirstOf(conditions: seq<Condition>, kind: ConditionType): (n: nat)
    ensures n <= |conditions| && forall i :: 0 <= i < n ==> conditions[i].kind != kind
    ensures n < |conditions| ==> conditions[n].kind == kind
  {
    if conditions == [] || conditions[0].kind == kind then 0 else 1 + FirstOf(conditions[1..], kind)
  }

  lemma {:induction false} SetIsAt(
    conditions: seq<Condition>, kind: ConditionType, status: ConditionStatus, message: Option<string>)
    ensures var n, c := FirstOf(conditions, kind), Condition(kind, status, message);
            Set(conditions, kind, status, message) ==
            if n < |conditions| then conditions[n := c] else conditions + [c]
    decreases |conditions|
  {
    if conditions != [] && conditions[0].kind != kind {
      SetIsAt(conditions[1..], kind, status, message);
      assert conditions == [conditions[0]] + conditions[1..];
    }
  }

  lemma LateInitKeeps(status: TableBucketStatus)
    requires Tidy(Listed(status))
    ensures Tidy(Listed(LateInitDone(status))) && Tidy(Listed(LateInitFailed(status)))
    ensures Calm(Listed(status)) ==> Calm(Listed(LateInitDone(status)))
  {
    hide AtMostOne, IsRaised, Set;
    var was := Listed(status);
    var failed := Set(was, CondLateInitialized, StatusFalse, Some(READ_FAILED));
    SetKeepsOthers(was, CondLateInitialized, StatusTrue, Some(LATE_INITIALIZED), CondTerminal);
    SetKeepsOthers(was, CondLateInitialized, StatusTrue, Some(LATE_INITIALIZED), CondRecoverable);
    SetKeepsOthers(was, CondLateInitialized, StatusFalse, Some(READ_FAILED), CondTerminal);
    SetKeepsOthers(was, CondLateInitialized, StatusFalse, Some(READ_FAILED), CondRecoverable);
    SetKeepsOthers(failed, CondSynced, StatusFalse, None, CondTerminal);
    SetKeepsOthers(failed, CondSynced, StatusFalse, None, CondRecoverable);
  }

  /** Whatever fails and whatever the service's state: a pass without error leaves neither a
      Terminal nor a Recoverable condition that is True, no pass ever adds a second one, and what
      the runtime is told is the Terminal error exactly when the pass failed with an error that
      is classified so. */
  lemma PassShowsOutcome(env: Env, cfg: Config, w: World, ko: Ko, order: seq<string>)
    requires Enumerates(order, Entries(ko.spec.maintenance).Keys)
    requires Tidy(Listed(ko.status))
    ensures var r := Pass(env, cfg, w, ko, order);
            && Tidy(Listed(r.stored.status))
            && (r.err.None? ==> Calm(Listed(r.stored.status)))
            && r.reported == if r.err.Some? && IsTerminal(r.err.value) then Some(TERMINAL) else r.err
  {
    hide Invoke, Execute, UpdatePlan, Compared, Tidy, Calm, Conditions.Concluded, IsRaised, EnsuredTags, MirroredTags,
      Finish, WithConfigurations, IsTerminal;
    var asked := Desired(cfg, ko);
    var (w1, found) := Find(env, cfg, w, asked);
    match found
    case Err(e) => FailureStaysTidy(asked.status.conditions, e);
    case Ok(observed) =>
      ObservedConditions(env, cfg, w, asked);
      SuccessCalms(observed.status.conditions);
      var latest := BucketPass.Concluded(cfg, observed, None);
      var d := Mirror(asked, latest);
      var changes := Compared(cfg, d.spec, latest.spec);
      if changes.Any() {
        var (w2, updated) := Update(env, w1, d, latest, changes, order);
        if updated.Err? {
          FailureStaysTidy(latest.status.conditions, updated.error);
        } else {
          SuccessCalms(latest.status.conditions);
          FinishShows(env, cfg, w2, ko, BucketPass.Concluded(cfg, updated.value, None), true);
        }
      } else {
        FinishShows(env, cfg, w1, ko, latest, false);
      }
  }

  lemma ObservedConditions(env: Env, cfg: Config, w: World, ko: Ko)
    ensures var found := Find(env, cfg, w, ko).1;
            found.Ok? ==> Listed(found.value.status) == Listed(ko.status)
  {
    hide Invoke, Execute, WithConfigurations;
  }

  lemma FinishShows(env: Env, cfg: Config, w: World, ko: Ko, latest: Ko, changed: bool)
    requires Tidy(Listed(latest.status)) && Calm(Listed(latest.status))
    ensures var r := Finish(env, cfg, w, ko, latest, changed);
            && Tidy(Listed(r.stored.status))
            && (r.err.None? ==> Calm(Listed(r.stored.status)))
            && r.reported == if r.err.Some? && IsTerminal(r.err.value) then Some(TERMINAL) else r.err
  {
    hide Find, Tidy, Calm, Conditions.Concluded, IsRaised, IsTerminal, LateInitDone, LateInitFailed, LateInitialized;
    LateInitKeeps(latest.status);
    var (w1, again) := Find(env, cfg, w, latest);
    if again.Err? {
      FailureStaysTidy(latest.status.conditions, again.error);
    }
  }

  // ----- Tables -----

  /** The same for a pass over a table, with foreign writers between any calls. */
  lemma TablePassShowsOutcome(env: S.Env, cfg: T.Config, w: S.World, ko: T.Ko)
    requires Tidy(ko.status.conditions.GetOr([]))
    ensures var r := T.Pass(env, cfg, w, ko);
            var now := r.stored.status.conditions.GetOr([]);
            && Tidy(now)
            && (r.err.None? ==> Calm(now))
            && r.reported == if r.err.Some? && IsTerminal(r.err.value) then Some(TERMINAL) else r.err
  {
    hide S.Invoke, S.Execute, T.UpdatePlan, TableDelta.Differences, Tidy, Calm, Conditions.Concluded, IsRaised,
      EnsuredTags, MirroredTags, T.Observation, IsTerminal, T.Find;
    var asked := T.Desired(cfg, ko);
    var (w1, found) := T.Find(env, cfg, w, asked);
    match found
    case Err(e) => FailureStaysTidy(asked.status.conditions, e);
    case Ok(observed) =>
      ObservedTableConditions(env, cfg, w, asked);
      SuccessCalms(observed.status.conditions);
      var latest := T.Concluded(cfg, observed, None);
      var d := T.Mirror(asked, latest);
      var (w2, err) := S.Execute(env, w1, T.UpdatePlan(d, latest, TableDelta.Differences(d.spec, latest.spec)));
      if err.Some? {
        FailureStaysTidy(latest.status.conditions, err.value);
      } else {
        SuccessCalms(latest.status.conditions);
      }
  }

  lemma ObservedTableConditions(env: S.Env, cfg: T.Config, w: S.World, ko: T.Ko)
    ensures var found := T.Find(env, cfg, w, ko).1;
            found.Ok? ==> found.value.status.conditions.GetOr([]) == ko.status.conditions.GetOr([])
  {
    hide S.Invoke;
  }
}
