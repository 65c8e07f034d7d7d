/** The condition state machine (updateConditions, terminalAWSError, onError, onSuccess): one
    step on any condition list, and whole runs of outcomes. The copies in the table and table
    bucket packages are identical. */
module Conditions {
  import opened Types

  // ----- Classification -----

  predicate TerminalAWSError(e: Error) {
    e.api.Some? && e.api.value.code == "BadRequestException"
  }

  predicate StatesItself(e: Error) {
    e.sentinel == SecretTypeNotSupported || e.sentinel == SecretNotFound || e.terminal
  }

  predicate IsTerminal(e: Error) {
    TerminalAWSError(e) || StatesItself(e)
  }

  function TerminalMessage(e: Error): string
    requires IsTerminal(e)
  {
    if StatesItself(e) then e.text else e.api.value.text
  }

  function RecoverableMessage(e: Error): string {
    if e.api.Some? then e.api.value.text else e.text
  }

  // ----- One step -----

  /** The loop remembers the last condition of a kind. */
  function LastOf(conditions: seq<Condition>, kind: ConditionType): (i: Option<nat>)
    ensures i.Some? ==> i.value < |conditions| && conditions[i.value].kind == kind
    ensures i.None? <==> forall c :: c in conditions ==> c.kind != kind
  {
    if conditions == [] then None
    else
      var n := |conditions| - 1;
      if conditions[n].kind == kind then Some(n) else LastOf(conditions[..n], kind)
  }

  lemma {:induction false} LastOfIsLast(conditions: seq<Condition>, kind: ConditionType)
    ensures LastOf(conditions, kind).Some? ==>
      forall j :: LastOf(conditions, kind).value < j < |conditions| ==> conditions[j].kind != kind
  {
    if conditions != [] && conditions[|conditions| - 1].kind != kind {
      LastOfIsLast(conditions[..|conditions| - 1], kind);
    }
  }

  function Raised(conditions: seq<Condition>, kind: ConditionType, message: string): seq<Condition> {
    var c := Condition(kind, StatusTrue, Some(message));
    match LastOf(conditions, kind)
    case Some(i) => conditions[i := c]
    case None => conditions + [c]
  }

  function Cleared(conditions: seq<Condition>, kind: ConditionType): seq<Condition> {
    match LastOf(conditions, kind)
    case Some(i) => conditions[i := Condition(kind, StatusFalse, None)]
    case None => conditions
  }

  function Next(conditions: seq<Condition>, outcome: Option<Error>): seq<Condition> {
    if outcome.Some? && IsTerminal(outcome.value) then
      Raised(conditions, CondTerminal, TerminalMessage(outcome.value))
    else
      var cleared := Cleared(conditions, CondTerminal);
      if outcome.Some? then Raised(cleared, CondRecoverable, RecoverableMessage(outcome.value))
      else Cleared(cleared, CondRecoverable)
  }

  predicate Has(conditions: seq<Condition>, kind: ConditionType) {
    LastOf(conditions, kind).Some?
  }

  /** The loop over the existing conditions. */
  method FindConditions(now: seq<Condition>)
    returns (terminal: Option<nat>, recoverable: Option<nat>, synced: Option<nat>)
    ensures terminal == LastOf(now, CondTerminal) && recoverable == LastOf(now, CondRecoverable)
    ensures synced == LastOf(now, CondSynced)
  {
    terminal, recoverable, synced := None, None, None;
    for i := 0 to |now|
      invariant terminal == LastOf(now[..i], CondTerminal)
      invariant recoverable == LastOf(now[..i], CondRecoverable)
      invariant synced == LastOf(now[..i], CondSynced)
    {
      assert now[..i + 1][..i] == now[..i];
      if now[i].kind == CondTerminal {
        terminal := Some(i);
      }
      if now[i].kind == CondRecoverable {
        recoverable := Some(i);
      }
      if now[i].kind == CondSynced {
        synced := Some(i);
      }
    }
    assert now[..|now|] == now;
  }

  /** updateConditions on the deep copy's status: the new list, or nothing when there is no
      Terminal, Recoverable or Synced condition at all. */
  method UpdateConditions(conditions: Option<seq<Condition>>, outcome: Option<Error>)
    returns (updated: Option<seq<Condition>>)
    ensures updated == if Updates(conditions, outcome) then Some(Next(conditions.GetOr([]), outcome)) else None
  {
    hide LastOf;
    var now := conditions.GetOr([]);
    ghost var was := now;
    var terminal, recoverable, synced := FindConditions(now);
    if outcome.Some? && IsTerminal(outcome.value) {
      if terminal.None? {
        terminal := Some(|now|);
        now := now + [Condition(CondTerminal, StatusUnset, None)];
      }
      now := now[terminal.value := now[terminal.value].(status := StatusTrue)];
      now := now[terminal.value := now[terminal.value].(message := Some(TerminalMessage(outcome.value)))];
      assert now == Raised(was, CondTerminal, TerminalMessage(outcome.value));
      KindsKept(was, CondTerminal, TerminalMessage(outcome.value));
    } else {
      if terminal.Some? {
        now := now[terminal.value := now[terminal.value].(status := StatusFalse, message := None)];
      }
      assert now == Cleared(was, CondTerminal);
      KindsCleared(was, CondTerminal);
      ghost var cleared := now;
      if outcome.Some? {
        if recoverable.None? {
          recoverable := Some(|now|);
          now := now + [Condition(CondRecoverable, StatusUnset, None)];
        }
        now := now[recoverable.value := now[recoverable.value].(status := StatusTrue)];
        now := now[recoverable.value := now[recoverable.value].(message := Some(RecoverableMessage(outcome.value)))];
        assert now == Raised(cleared, CondRecoverable, RecoverableMessage(outcome.value));
        KindsKept(cleared, CondRecoverable, RecoverableMessage(outcome.value));
      } else {
        if recoverable.Some? {
          now := now[recoverable.value := now[recoverable.value].(status := StatusFalse, message := None)];
        }
        assert now == Cleared(cleared, CondRecoverable);
        KindsCleared(cleared, CondRecoverable);
      }
    }
    assert now == Next(was, outcome);
    if terminal.Some? || recoverable.Some? || synced.Some? {
      return Some(now);
    }
    return None;
  }

  // ----- Where the conditions of a kind are -----

  lemma {:induction false} SameKindsSameLast(a: seq<Condition>, b: seq<Condition>, kind: ConditionType)
    requires |a| == |b| && forall i :: 0 <= i < |a| ==> a[i].kind == b[i].kind
    ensures LastOf(a, kind) == LastOf(b, kind)
  {
    if a != [] {
      SameKindsSameLast(a[..|a| - 1], b[..|b| - 1], kind);
    }
  }

  lemma KindsCleared(conditions: seq<Condition>, kind: ConditionType)
    ensures forall k :: LastOf(Cleared(conditions, kind), k) == LastOf(conditions, k)
  {
    forall k
      ensures LastOf(Cleared(conditions, kind), k) == LastOf(conditions, k)
    {
      SameKindsSameLast(Cleared(conditions, kind), conditions, k);
    }
  }

  lemma KindsKept(conditions: seq<Condition>, kind: ConditionType, message: string)
    ensures forall k :: k != kind ==> LastOf(Raised(conditions, kind, message), k) == LastOf(conditions, k)
    ensures LastOf(Raised(conditions, kind, message), kind)
         == if Has(conditions, kind) then LastOf(conditions, kind) else Some(|conditions|)
  {
    var raised := Raised(conditions, kind, message);
    forall k
      ensures k != kind || Has(conditions, kind) ==> LastOf(raised, k) == LastOf(conditions, k)
    {
      if Has(conditions, kind) {
        SameKindsSameLast(raised, conditions, k);
      } else {
        assert raised[..|raised| - 1] == conditions;
      }
    }
  }

  /** There is something to say: a condition of one of the three kinds is there, or is added. */
  predicate Updates(conditions: Option<seq<Condition>>, outcome: Option<Error>) {
    var now := Next(conditions.GetOr([]), outcome);
    Has(now, CondTerminal) || Has(now, CondRecoverable) || Has(now, CondSynced)
  }

  /** The conditions of the object returned after an outcome. */
  function Concluded(conditions: Option<seq<Condition>>, outcome: Option<Error>): Option<seq<Condition>> {
    if Updates(conditions, outcome) then Some(Next(conditions.GetOr([]), outcome)) else conditions
  }

  /** `ackcondition.SetSynced` and `SetLateInitialized`: edit the first condition of the kind or
      append one. */
  function Set(
    conditions: seq<Condition>, kind: ConditionType, status: ConditionStatus, message: Option<string>): seq<Condition>
  {
    if conditions == [] then [Condition(kind, status, message)]
    else if conditions[0].kind == kind then [Condition(kind, status, message)] + conditions[1..]
    else [conditions[0]] + Set(conditions[1..], kind, status, message)
  }

  lemma {:induction false} SetAfter(
    a: seq<Condition>, b: seq<Condition>, kind: ConditionType, status: ConditionStatus, message: Option<string>)
    requires forall c :: c in a ==> c.kind != kind
    ensures Set(a + b, kind, status, message) == a + Set(b, kind, status, message)
  {
    if a == [] {
      assert a + b == b;
    } else {
      assert (a + b)[1..] == a[1..] + b;
      SetAfter(a[1..], b, kind, status, message);
    }
  }

  /** `now` is `was` with its first condition of the kind of `c` replaced by `c`, or, where there
      is none, with `c` added at the end. */
  ghost predicate PutsFirst(was: seq<Condition>, now: seq<Condition>, c: Condition) {
    if exists i :: 0 <= i < |was| && was[i].kind == c.kind then
      exists i :: 0 <= i < |was| && was[i].kind == c.kind && now == was[i := c] &&
                  forall j :: 0 <= j < i ==> was[j].kind != c.kind
    else now == was + [c]
  }

  lemma {:induction false} SetPuts(
    was: seq<Condition>, kind: ConditionType, status: ConditionStatus, message: Option<string>)
    ensures PutsFirst(was, Set(was, kind, status, message), Condition(kind, status, message))
    decreases |was|
  {
    var c := Condition(kind, status, message);
    if was != [] {
      if was[0].kind == kind {
        assert was[0 := c] == [c] + was[1..];
      } else {
        var rest := was[1..];
        SetPuts(rest, kind, status, message);
        assert was == [was[0]] + rest;
        PutsFirstBehind(was[0], rest, Set(rest, kind, status, message), c);
      }
    }
  }

  lemma PutsFirstBehind(head: Condition, was: seq<Condition>, now: seq<Condition>, c: Condition)
    requires head.kind != c.kind && PutsFirst(was, now, c)
    ensures PutsFirst([head] + was, [head] + now, c)
  {
    if i :| 0 <= i < |was| && was[i].kind == c.kind && now == was[i := c] &&
            forall j :: 0 <= j < i ==> was[j].kind != c.kind
    {
      assert ([head] + was)[i + 1] == was[i];
      assert ([head] + was)[i + 1 := c] == [head] + now;
    } else {
      assert [head] + (was + [c]) == [head] + was + [c];
    }
  }

  method SetCondition(
    conditions: seq<Condition>, kind: ConditionType, status: ConditionStatus, message: Option<string>)
    returns (r: seq<Condition>)
    ensures r == Set(conditions, kind, status, message)
  {
    for i := 0 to |conditions|
      invariant forall c :: c in conditions[..i] ==> c.kind != kind
    {
      if conditions[i].kind == kind {
        r := conditions[..i] + ([Condition(kind, status, message)] + conditions[i + 1..]);
        assert conditions == conditions[..i] + conditions[i..] && conditions[i..][1..] == conditions[i + 1..];
        SetAfter(conditions[..i], conditions[i..], kind, status, message);
        return;
      }
    }
    r := conditions + [Condition(kind, status, message)];
    assert conditions[..|conditions|] == conditions == conditions + [];
    SetAfter(conditions, [], kind, status, message);
  }

  // ----- What one step leaves, by kind of error -----

  /** `now` is `was` with its last condition of the kind of `c` replaced by `c`, or, where there
      is none, with `c` added at the end. */
  ghost predicate Puts(was: seq<Condition>, now: seq<Condition>, c: Condition) {
    if exists i :: 0 <= i < |was| && was[i].kind == c.kind then
      exists i :: 0 <= i < |was| && was[i].kind == c.kind && now == was[i := c] &&
                  forall j :: i < j < |was| ==> was[j].kind != c.kind
    else now == was + [c]
  }

  lemma RaisedPuts(was: seq<Condition>, kind: ConditionType, message: string)
    ensures Puts(was, Raised(was, kind, message), Condition(kind, StatusTrue, Some(message)))
  {
    LastOfIsLast(was, kind);
    match LastOf(was, kind) {
      case Some(i) =>
        assert was[i].kind == kind;
      case None =>
        assert forall i :: 0 <= i < |was| ==> was[i] in was;
    }
  }

  lemma ClearedPuts(was: seq<Condition>, kind: ConditionType)
    ensures Lowers(was, Cleared(was, kind), kind)
  {
    LastOfIsLast(was, kind);
    match LastOf(was, kind) {
      case Some(i) =>
        assert was[i] in was && was[i].kind == kind;
      case None =>
    }
  }

  /** An error is terminal when it says so itself, is one of the two secret errors, or carries an
      API error of code BadRequestException, and in no other case. A terminal error puts a True
      Terminal condition, with the error's own text if it says so itself and with the API error's
      text otherwise, and leaves everything else as it was. */
  lemma TerminalErrorsAre(was: seq<Condition>, e: Error)
    ensures var says := e.terminal || e.sentinel == SecretTypeNotSupported || e.sentinel == SecretNotFound;
            && (IsTerminal(e) <==> says || (e.api.Some? && e.api.value.code == "BadRequestException"))
            && (IsTerminal(e) ==>
                  var text := if says then e.text else e.api.value.text;
                  Puts(was, Next(was, Some(e)), Condition(CondTerminal, StatusTrue, Some(text))))
  {
    if IsTerminal(e) {
      RaisedPuts(was, CondTerminal, TerminalMessage(e));
    }
  }

  /** A condition of this kind, if there is one, is False without a message; nothing else changed. */
  ghost predicate Lowers(was: seq<Condition>, now: seq<Condition>, kind: ConditionType) {
    if exists c :: c in was && c.kind == kind then Puts(was, now, Condition(kind, StatusFalse, None)) else now == was
  }

  /** Any other error, or none, first lowers Terminal. An error then puts a True Recoverable
      condition, with the API error's text if it carries one and its own otherwise; no error
      lowers Recoverable. */
  lemma OtherOutcomesAre(was: seq<Condition>, outcome: Option<Error>) returns (lowered: seq<Condition>)
    requires outcome.Some? ==> !IsTerminal(outcome.value)
    ensures Lowers(was, lowered, CondTerminal)
    ensures match outcome
            case None => Lowers(lowered, Next(was, outcome), CondRecoverable)
            case Some(e) =>
              var text := if e.api.Some? then e.api.value.text else e.text;
              Puts(lowered, Next(was, outcome), Condition(CondRecoverable, StatusTrue, Some(text)))
  {
    lowered := Cleared(was, CondTerminal);
    ClearedPuts(was, CondTerminal);
    ClearedPuts(lowered, CondRecoverable);
    if outcome.Some? {
      RaisedPuts(lowered, CondRecoverable, RecoverableMessage(outcome.value));
    }
    hide Puts, Cleared, Raised;
  }

  /** An object is returned as it was only after a success and without any of the three kinds. */
  lemma UpdatesIff(conditions: Option<seq<Condition>>, outcome: Option<Error>)
    ensures Updates(conditions, outcome) <==>
      outcome.Some? ||
      exists c :: c in conditions.GetOr([]) &&
                  (c.kind == CondTerminal || c.kind == CondRecoverable || c.kind == CondSynced)
  {
    var was := conditions.GetOr([]);
    KindsCleared(was, CondTerminal);
    KindsCleared(Cleared(was, CondTerminal), CondRecoverable);
    if outcome.Some? {
      NextHasOne(was, outcome.value);
    }
    hide Cleared, Raised;
  }

  // ----- Invariants over runs -----

  function After(start: seq<Condition>, outcomes: seq<Option<Error>>): seq<Condition> {
    if outcomes == [] then start
    else Next(After(start, outcomes[..|outcomes| - 1]), outcomes[|outcomes| - 1])
  }

  /** Conditions of the kinds this machine does not own. */
  function Others(conditions: seq<Condition>): seq<Condition> {
    if conditions == [] then []
    else
      var n := |conditions| - 1;
      Others(conditions[..n]) +
      if conditions[n].kind == CondTerminal || conditions[n].kind == CondRecoverable then [] else [conditions[n]]
  }

  ghost predicate AtMostOne(conditions: seq<Condition>, kind: ConditionType) {
    forall i, j :: 0 <= i < j < |conditions| ==> conditions[i].kind != kind || conditions[j].kind != kind
  }

  lemma {:induction false} OthersKept(conditions: seq<Condition>, i: nat, c: Condition)
    requires i < |conditions| && conditions[i].kind == c.kind
    requires c.kind == CondTerminal || c.kind == CondRecoverable
    ensures Others(conditions[i := c]) == Others(conditions)
  {
    var n := |conditions| - 1;
    if i == n {
      assert conditions[i := c][..n] == conditions[..n];
    } else {
      assert conditions[i := c][..n] == conditions[..n][i := c];
      OthersKept(conditions[..n], i, c);
    }
  }

  lemma StepKeepsOthers(conditions: seq<Condition>, kind: ConditionType, message: string)
    requires kind == CondTerminal || kind == CondRecoverable
    ensures Others(Raised(conditions, kind, message)) == Others(conditions)
    ensures Others(Cleared(conditions, kind)) == Others(conditions)
  {
    match LastOf(conditions, kind)
    case Some(i) =>
      OthersKept(conditions, i, Condition(kind, StatusTrue, Some(message)));
      OthersKept(conditions, i, Condition(kind, StatusFalse, None));
    case None =>
      assert Raised(conditions, kind, message)[..|conditions|] == conditions;
  }

  lemma StepKeepsAtMostOne(conditions: seq<Condition>, kind: ConditionType, message: string, k: ConditionType)
    requires AtMostOne(conditions, k)
    ensures AtMostOne(Raised(conditions, kind, message), k)
    ensures AtMostOne(Cleared(conditions, kind), k)
  {
  }

  /** From any list: every other condition is kept, unchanged and in order; and no second
      Terminal or Recoverable condition ever appears. */
  lemma {:induction false} RunKeepsOthers(start: seq<Condition>, outcomes: seq<Option<Error>>)
    ensures Others(After(start, outcomes)) == Others(start)
    ensures AtMostOne(start, CondTerminal) ==> AtMostOne(After(start, outcomes), CondTerminal)
    ensures AtMostOne(start, CondRecoverable) ==> AtMostOne(After(start, outcomes), CondRecoverable)
  {
    hide Others, AtMostOne, Raised, Cleared;
    if outcomes != [] {
      var before, outcome := After(start, outcomes[..|outcomes| - 1]), outcomes[|outcomes| - 1];
      RunKeepsOthers(start, outcomes[..|outcomes| - 1]);
      NextKeepsOthers(before, outcome, CondTerminal);
      NextKeepsOthers(before, outcome, CondRecoverable);
    }
  }

  lemma NextKeepsOthers(before: seq<Condition>, outcome: Option<Error>, k: ConditionType)
    ensures Others(Next(before, outcome)) == Others(before)
    ensures AtMostOne(before, k) ==> AtMostOne(Next(before, outcome), k)
  {
    hide Others, AtMostOne, Raised, Cleared;
    if outcome.Some? && IsTerminal(outcome.value) {
      StepKeepsOthers(before, CondTerminal, TerminalMessage(outcome.value));
      if AtMostOne(before, k) {
        StepKeepsAtMostOne(before, CondTerminal, TerminalMessage(outcome.value), k);
      }
    } else {
      var cleared := Cleared(before, CondTerminal);
      var message := if outcome.Some? then RecoverableMessage(outcome.value) else "";
      StepKeepsOthers(before, CondTerminal, "");
      StepKeepsOthers(cleared, CondRecoverable, message);
      if AtMostOne(before, k) {
        StepKeepsAtMostOne(before, CondTerminal, "", k);
        StepKeepsAtMostOne(cleared, CondRecoverable, message, k);
      }
    }
  }

  lemma RaisedTwice(conditions: seq<Condition>, kind: ConditionType, message: string)
    ensures Raised(Raised(conditions, kind, message), kind, message) == Raised(conditions, kind, message)
  {
    KindsKept(conditions, kind, message);
  }

  lemma ClearedTwice(conditions: seq<Condition>, kind: ConditionType)
    ensures Cleared(Cleared(conditions, kind), kind) == Cleared(conditions, kind)
  {
    KindsCleared(conditions, kind);
  }

  lemma StaysCleared(conditions: seq<Condition>, message: string)
    requires Cleared(conditions, CondTerminal) == conditions
    ensures Cleared(Raised(conditions, CondRecoverable, message), CondTerminal)
         == Raised(conditions, CondRecoverable, message)
    ensures Cleared(Cleared(conditions, CondRecoverable), CondTerminal) == Cleared(conditions, CondRecoverable)
  {
    KindsKept(conditions, CondRecoverable, message);
    KindsCleared(conditions, CondRecoverable);
  }

  /** Repeating an outcome changes nothing, on any list. */
  lemma RepeatingIsIdempotent(conditions: seq<Condition>, outcome: Option<Error>)
    ensures Next(Next(conditions, outcome), outcome) == Next(conditions, outcome)
  {
    hide Raised, Cleared;
    if outcome.Some? && IsTerminal(outcome.value) {
      RaisedTwice(conditions, CondTerminal, TerminalMessage(outcome.value));
    } else {
      var cleared := Cleared(conditions, CondTerminal);
      ClearedTwice(conditions, CondTerminal);
      var message := if outcome.Some? then RecoverableMessage(outcome.value) else "";
      StaysCleared(cleared, message);
      RaisedTwice(cleared, CondRecoverable, message);
      ClearedTwice(cleared, CondRecoverable);
    }
  }

  // ----- What the conditions say about the history -----

  /** A condition as the history determines it: absent, raised with a message, or cleared. */
  datatype Flag = Absent | Up(message: string) | Down

  function TerminalFlag(outcomes: seq<Option<Error>>): Flag {
    if outcomes == [] then Absent
    else
      var last := outcomes[|outcomes| - 1];
      if last.Some? && IsTerminal(last.value) then Up(TerminalMessage(last.value))
      else if TerminalFlag(outcomes[..|outcomes| - 1]).Absent? then Absent else Down
  }

  /** A terminal outcome leaves the Recoverable condition as it was. */
  function RecoverableFlag(outcomes: seq<Option<Error>>): Flag {
    if outcomes == [] then Absent
    else
      var before := RecoverableFlag(outcomes[..|outcomes| - 1]);
      var last := outcomes[|outcomes| - 1];
      if last.Some? && IsTerminal(last.value) then before
      else if last.Some? then Up(RecoverableMessage(last.value))
      else if before.Absent? then Absent else Down
  }

  ghost predicate Shows(conditions: seq<Condition>, kind: ConditionType, flag: Flag) {
    match LastOf(conditions, kind)
    case None => flag.Absent?
    case Some(i) =>
      match flag
      case Absent => false
      case Up(message) => conditions[i] == Condition(kind, StatusTrue, Some(message))
      case Down => conditions[i] == Condition(kind, StatusFalse, None)
  }

  /** Over any run from an empty list, each of the two conditions is exactly what the history
      of outcomes says; in particular its status is True just when it carries a message. */
  lemma {:induction false} RunShowsHistory(outcomes: seq<Option<Error>>)
    ensures Shows(After([], outcomes), CondTerminal, TerminalFlag(outcomes))
    ensures Shows(After([], outcomes), CondRecoverable, RecoverableFlag(outcomes))
    ensures forall c :: c in After([], outcomes) ==>
      (c.kind == CondTerminal || c.kind == CondRecoverable) && (c.status == StatusTrue <==> c.message.Some?)
  {
    if outcomes != [] {
      var before, outcome := After([], outcomes[..|outcomes| - 1]), outcomes[|outcomes| - 1];
      RunShowsHistory(outcomes[..|outcomes| - 1]);
      if outcome.Some? && IsTerminal(outcome.value) {
        KindsKept(before, CondTerminal, TerminalMessage(outcome.value));
      } else {
        var cleared := Cleared(before, CondTerminal);
        KindsCleared(before, CondTerminal);
        if outcome.Some? {
          KindsKept(cleared, CondRecoverable, RecoverableMessage(outcome.value));
        } else {
          KindsCleared(cleared, CondRecoverable);
        }
      }
    }
  }

  predicate Fails(outcome: Option<Error>) {
    outcome.Some? && !IsTerminal(outcome.value)
  }

  predicate Ends(outcome: Option<Error>) {
    outcome.Some? && IsTerminal(outcome.value)
  }

  /** Outcome i was a recoverable error, and everything after it was terminal. */
  ghost predicate FailsThenEnds(outcomes: seq<Option<Error>>, i: nat) {
    i < |outcomes| && Fails(outcomes[i]) && forall j :: i < j < |outcomes| ==> Ends(outcomes[j])
  }

  lemma {:induction false} RecoverableIffFailsThenEnds(outcomes: seq<Option<Error>>)
    ensures RecoverableFlag(outcomes).Up? <==> exists i: nat :: FailsThenEnds(outcomes, i)
  {
    if outcomes != [] {
      var n := |outcomes| - 1;
      var before := outcomes[..n];
      RecoverableIffFailsThenEnds(before);
      if Fails(outcomes[n]) {
        assert FailsThenEnds(outcomes, n);
      } else if Ends(outcomes[n]) {
        forall i | FailsThenEnds(before, i)
          ensures FailsThenEnds(outcomes, i)
        {
        }
        forall i | FailsThenEnds(outcomes, i)
          ensures FailsThenEnds(before, i)
        {
        }
      }
    }
  }

  ghost predicate IsRaised(conditions: seq<Condition>, kind: ConditionType) {
    exists i :: 0 <= i < |conditions| && conditions[i].kind == kind && conditions[i].status == StatusTrue
  }

  /** With at most one condition of a kind, some such condition is True exactly when the list
      shows the flag raised. */
  lemma ShownIsRaised(conditions: seq<Condition>, kind: ConditionType, flag: Flag)
    requires AtMostOne(conditions, kind) && Shows(conditions, kind, flag)
    ensures IsRaised(conditions, kind) <==> flag.Up?
  {
    match LastOf(conditions, kind) {
      case None =>
        forall i | 0 <= i < |conditions|
          ensures conditions[i].kind != kind
        {
          assert conditions[i] in conditions;
        }
      case Some(n) => assert forall i :: 0 <= i < |conditions| && conditions[i].kind == kind ==> i == n;
    }
  }

  /** Terminal and Recoverable are not exclusive: on the list that a run from the empty one ends
      with, both are True exactly when the run ends with one or more terminal errors right after
      a recoverable one. */
  lemma BothTrueIff(outcomes: seq<Option<Error>>)
    ensures IsRaised(After([], outcomes), CondTerminal) && IsRaised(After([], outcomes), CondRecoverable) <==>
            exists i: nat :: FailsThenEnds(outcomes, i) && i + 1 < |outcomes|
  {
    hide Shows, AtMostOne, IsRaised, RecoverableFlag, After, LastOf;
    NothingTwice();
    RunKeepsOthers([], outcomes);
    RunShowsHistory(outcomes);
    ShownIsRaised(After([], outcomes), CondTerminal, TerminalFlag(outcomes));
    ShownIsRaised(After([], outcomes), CondRecoverable, RecoverableFlag(outcomes));
    RecoverableIffFailsThenEnds(outcomes);
    if outcomes != [] {
      var last := |outcomes| - 1;
      forall i: nat | FailsThenEnds(outcomes, i)
        ensures Ends(outcomes[last]) <==> i + 1 < |outcomes|
      {
      }
    }
  }

  lemma NothingTwice()
    ensures AtMostOne([], CondTerminal) && AtMostOne([], CondRecoverable)
  {
  }

  // ----- onError -----

  /** onError: a Terminal condition that is True replaces the error it is given. On any list the
      controller can produce, that is the case exactly when the error itself is terminal. */
  method OnError(conditions: Option<seq<Condition>>, err: Error) returns (r: Option<seq<Condition>>, e: Error)
    ensures r == Some(Next(conditions.GetOr([]), Some(err))) == Concluded(conditions, Some(err))
    ensures e == if IsRaised(Next(conditions.GetOr([]), Some(err)), CondTerminal) then TERMINAL else err
    ensures AtMostOne(conditions.GetOr([]), CondTerminal) ==>
      e == if err.terminal || err.sentinel == SecretTypeNotSupported || err.sentinel == SecretNotFound ||
              (err.api.Some? && err.api.value.code == "BadRequestException")
           then Error("resource is in terminal condition", None, false, AckTerminal) else err
  {
    r := UpdateConditions(conditions, Some(err));
    var was := conditions.GetOr([]);
    NextHasOne(was, err);
    TerminalIffRaised(was, err);
    if r.None? {
      return r, err;
    }
    for i := 0 to |r.value|
      invariant forall k :: 0 <= k < i ==> !(r.value[k].kind == CondTerminal && r.value[k].status == StatusTrue)
    {
      if r.value[i].kind == CondTerminal && r.value[i].status == StatusTrue {
        return r, TERMINAL;
      }
    }
    return r, err;
  }

  /** With at most one Terminal condition before, an API error leaves Terminal True exactly for
      the one code, and never otherwise. */
  lemma ApiErrorsRaise(was: seq<Condition>, code: string, text: string)
    requires AtMostOne(was, CondTerminal)
    ensures IsRaised(Next(was, Some(ApiFailure(code, text))), CondTerminal) <==> code == "BadRequestException"
    ensures code != "BadRequestException" ==> IsRaised(Next(was, Some(ApiFailure(code, text))), CondRecoverable)
  {
    var e := ApiFailure(code, text);
    TerminalIffRaised(was, e);
    if code != "BadRequestException" {
      var cleared := Cleared(was, CondTerminal);
      KindsKept(cleared, CondRecoverable, RecoverableMessage(e));
      var i := LastOf(Next(was, Some(e)), CondRecoverable).value;
      assert Next(was, Some(e))[i] == Condition(CondRecoverable, StatusTrue, Some(text));
    }
  }

  lemma NextHasOne(was: seq<Condition>, err: Error)
    ensures var now := Next(was, Some(err)); Has(now, CondTerminal) || Has(now, CondRecoverable)
  {
  }

  lemma TerminalIffRaised(was: seq<Condition>, err: Error)
    ensures IsTerminal(err) ==> IsRaised(Next(was, Some(err)), CondTerminal)
    ensures AtMostOne(was, CondTerminal) && IsRaised(Next(was, Some(err)), CondTerminal) ==> IsTerminal(err)
  {
    var now := Next(was, Some(err));
    if IsTerminal(err) {
      KindsKept(was, CondTerminal, TerminalMessage(err));
      var i := LastOf(now, CondTerminal).value;
      assert now[i] == Condition(CondTerminal, StatusTrue, Some(TerminalMessage(err)));
    } else if AtMostOne(was, CondTerminal) {
      NextKeepsOthers(was, Some(err), CondTerminal);
      var cleared := Cleared(was, CondTerminal);
      KindsCleared(was, CondTerminal);
      KindsKept(cleared, CondRecoverable, RecoverableMessage(err));
      forall i | 0 <= i < |now| && now[i].kind == CondTerminal
        ensures now[i].status != StatusTrue
      {
        var last := LastOf(now, CondTerminal);
        assert now[i] in now;
        assert last.Some? && last == LastOf(was, CondTerminal);
        assert i == last.value && now[i] == cleared[i];
      }
    }
  }
}
