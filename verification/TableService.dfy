/** The S3 Tables service as many writers see it: tables keyed by ARN, names unique within a
    bucket and namespace, and a version token that every change of a table's name or metadata
    location replaces by one never used before. The service is not in the repository; this is
    the contract the controller relies on. */
module TableService {
  import opened Types
  import opened Tags

  datatype Place = Place(bucket: string, namespace: string, name: string)

  /** What GetTable returns besides what the controller can change. */
  datatype Facts = Facts(
    createdAt: Option<int>, modifiedAt: Option<int>, format: string, tableType: string,
    namespaceID: Option<string>, tableBucketID: Option<string>, warehouse: Option<string>)

  datatype Table = Table(place: Place, location: Option<string>, token: nat, tags: AckTags, facts: Facts)

  datatype State = State(names: map<Place, string>, tables: map<string, Table>, next: nat)

  /** The name index and the tables agree, and no two tables share a token. */
  ghost predicate Valid(s: State) {
    && (forall p :: p in s.names ==> NameValid(s, p))
    && (forall a :: a in s.tables ==> TableValid(s, a))
    && (forall a, b :: a in s.tables && b in s.tables && a != b ==> s.tables[a].token != s.tables[b].token)
  }

  ghost predicate NameValid(s: State, p: Place)
    requires p in s.names
  {
    s.names[p] in s.tables && s.tables[s.names[p]].place == p
  }

  ghost predicate TableValid(s: State, a: string)
    requires a in s.tables
  {
    s.tables[a].place in s.names && s.names[s.tables[a].place] == a && s.tables[a].token < s.next
  }

  /** Tokens are opaque strings; all that matters is that different tokens read differently. */
  function TokenText(token: nat): (text: string)
    ensures |text| == token
  {
    seq(token, _ => '.')
  }

  // ----- Changes -----

  function Create(s: State, arn: string, place: Place, location: Option<string>, tags: AckTags, facts: Facts): State {
    if arn in s.tables || place in s.names then s
    else State(s.names[place := arn], s.tables[arn := Table(place, location, s.next, tags, facts)], s.next + 1)
  }

  function Move(s: State, arn: string, place: Place): State {
    if arn !in s.tables || place in s.names then s
    else State((s.names - {s.tables[arn].place})[place := arn],
               s.tables[arn := s.tables[arn].(place := place, token := s.next)], s.next + 1)
  }

  function Commit(s: State, arn: string, location: Option<string>): State {
    if arn !in s.tables then s
    else State(s.names, s.tables[arn := s.tables[arn].(location := location, token := s.next)], s.next + 1)
  }

  function Drop(s: State, arn: string): State {
    if arn !in s.tables then s
    else State(s.names - {s.tables[arn].place}, s.tables - {arn}, s.next)
  }

  function Retag(s: State, arn: string, tags: AckTags): State {
    if arn !in s.tables then s else s.(tables := s.tables[arn := s.tables[arn].(tags := tags)])
  }

  /** What any other client can do. */
  datatype Foreign =
    | FCreate(arn: string, place: Place, location: Option<string>, tags: AckTags, facts: Facts)
    | FMove(arn: string, to: Place)
    | FCommit(arn: string, newLocation: Option<string>)
    | FDrop(arn: string)
    | FRetag(arn: string, newTags: AckTags)

  function Act(s: State, f: Foreign): State {
    match f
    case FCreate(arn, place, location, tags, facts) => Create(s, arn, place, location, tags, facts)
    case FMove(arn, to) => Move(s, arn, to)
    case FCommit(arn, newLocation) => Commit(s, arn, newLocation)
    case FDrop(arn) => Drop(s, arn)
    case FRetag(arn, newTags) => Retag(s, arn, newTags)
  }

  function ActAll(s: State, fs: seq<Foreign>): State
    decreases |fs|
  {
    if fs == [] then s else ActAll(Act(s, fs[0]), fs[1..])
  }

  // ----- The controller's calls -----

  /** A request names a table by place, in up to three optional parts; a read can instead name
      it by ARN, but not in both ways at once. */
  datatype Target = Target(bucket: Option<string>, namespace: Option<string>, name: Option<string>)

  datatype Call =
    | Get(tableArn: Option<string>, at: Target)
    | ListTags(arn: string)
    | RenameTable(at: Target, newName: Option<string>, token: Option<string>)
    | UpdateLocation(at: Target, location: string, token: Option<string>)
    | DeleteTable(at: Target, token: Option<string>)
    | UntagTable(arn: string, keys: set<string>)
    | TagTable(arn: string, added: AckTags)

  const NOWHERE := Target(None, None, None)

  function GetByArn(arn: string): Call {
    Get(Some(arn), NOWHERE)
  }

  /** The writes that a version token guards. */
  predicate Guarded(call: Call) {
    call.RenameTable? || call.UpdateLocation? || call.DeleteTable?
  }

  predicate IsWrite(call: Call) {
    Guarded(call) || call.UntagTable? || call.TagTable?
  }

  function Lookup(s: State, at: Target): Option<string> {
    if at.bucket.None? || at.namespace.None? || at.name.None? then None
    else
      var p := Place(at.bucket.value, at.namespace.value, at.name.value);
      if p in s.names && s.names[p] in s.tables then Some(s.names[p]) else None
  }

  const MISSING := ApiFailure(NOT_FOUND_CODE, "no such table")
  const CONFLICT := ApiFailure("ConflictException", "version token or name conflict")
  const BAD_REQUEST := ApiFailure("BadRequestException", "malformed request")

  datatype Response = Done | Found(arn: string, table: Table, token: Option<string>) | TagsOf(tags: AckTags)

  function ReplyFor(s: State, arn: Option<string>): Result<Response> {
    if arn.Some? && arn.value in s.tables
    then Ok(Found(arn.value, s.tables[arn.value], Some(TokenText(s.tables[arn.value].token))))
    else Err(MISSING)
  }

  predicate TokenMatches(t: Table, token: Option<string>) {
    token.None? || token.value == TokenText(t.token)
  }

  /** The table a guarded write is let through to. */
  function Admit(s: State, at: Target, token: Option<string>): (arn: Result<string>)
    ensures arn.Ok? ==> arn.value in s.tables && TokenMatches(s.tables[arn.value], token)
  {
    var arn := Lookup(s, at);
    if arn.None? then Err(MISSING)
    else if !TokenMatches(s.tables[arn.value], token) then Err(CONFLICT)
    else Ok(arn.value)
  }

  function ServeRename(s: State, arn: string, newName: Option<string>): (State, Result<Response>)
    requires arn in s.tables
  {
    if newName.None? then (s, Err(BAD_REQUEST))
    else
      var to := s.tables[arn].place.(name := newName.value);
      if to in s.names then (s, Err(CONFLICT)) else (Move(s, arn, to), Ok(Done))
  }

  function Serve(s: State, call: Call): (State, Result<Response>) {
    match call
    case Get(tableArn, at) =>
      (s, if tableArn.None? then ReplyFor(s, Lookup(s, at))
          else if at != NOWHERE then Err(BAD_REQUEST) else ReplyFor(s, tableArn))
    case ListTags(arn) => (s, if arn in s.tables then Ok(TagsOf(s.tables[arn].tags)) else Err(MISSING))
    case UntagTable(arn, keys) =>
      if arn in s.tables then (Retag(s, arn, s.tables[arn].tags - keys), Ok(Done)) else (s, Err(MISSING))
    case TagTable(arn, added) =>
      if arn in s.tables then (Retag(s, arn, s.tables[arn].tags + added), Ok(Done)) else (s, Err(MISSING))
    case RenameTable(at, newName, token) =>
      var arn := Admit(s, at, token);
      if arn.Err? then (s, Err(arn.error)) else ServeRename(s, arn.value, newName)
    case UpdateLocation(at, location, token) =>
      var arn := Admit(s, at, token);
      if arn.Err? then (s, Err(arn.error)) else (Commit(s, arn.value, Some(location)), Ok(Done))
    case DeleteTable(at, token) =>
      var arn := Admit(s, at, token);
      if arn.Err? then (s, Err(arn.error)) else (Drop(s, arn.value), Ok(Done))
  }

  // ----- Runs -----

  datatype Fault = NoFault | Rejected(e: Error) | LostReply(e: Error)

  /** `foreign(n)` is what other clients do between the controller's calls n-1 and n; `tells(n)`
      says whether the reply to call n, if it shows a table, includes the version token. */
  datatype Env = Env(fault: nat -> Fault, foreign: nat -> seq<Foreign>, tells: nat -> bool)

  function Told(reply: Result<Response>, tells: bool): Result<Response> {
    if reply.Ok? && reply.value.Found? && !tells then Ok(reply.value.(token := None)) else reply
  }

  /** One call of the controller: the state it met and the state it left. */
  datatype Event = Event(call: Call, before: State, after: State)

  datatype World = World(state: State, log: seq<Event>)

  function Invoke(env: Env, w: World, call: Call): (World, Result<Response>) {
    var n := |w.log|;
    var s := ActAll(w.state, env.foreign(n));
    var (served, reply) := Serve(s, call);
    match env.fault(n)
    case NoFault => (World(served, w.log + [Event(call, s, served)]), Told(reply, env.tells(n)))
    case Rejected(e) => (World(s, w.log + [Event(call, s, s)]), Err(e))
    case LostReply(e) => (World(served, w.log + [Event(call, s, served)]), Err(e))
  }

  class Client {
    const env: Env
    var world: World

    constructor (env: Env, world: World)
      ensures this.env == env && this.world == world
    {
      this.env, this.world := env, world;
    }

    method Do(call: Call) returns (reply: Result<Response>)
      modifies this
      ensures (world, reply) == Invoke(env, old(world), call)
    {
      var (w, r) := Invoke(env, world, call);
      world := w;
      return r;
    }
  }

  function Execute(env: Env, w: World, plan: seq<Call>): (World, Option<Error>)
    decreases |plan|
  {
    if plan == [] then (w, None)
    else
      var (w1, reply) := Invoke(env, w, plan[0]);
      if reply.Err? then (w1, Some(reply.error)) else Execute(env, w1, plan[1..])
  }

  lemma {:induction false} ExecuteAppend(env: Env, w: World, p: seq<Call>, q: seq<Call>)
    ensures var (w1, err) := Execute(env, w, p);
            Execute(env, w, p + q) == if err.Some? then (w1, err) else Execute(env, w1, q)
    decreases |p|
  {
    if p == [] {
      assert p + q == q;
    } else {
      assert (p + q)[1..] == p[1..] + q;
      ExecuteAppend(env, Invoke(env, w, p[0]).0, p[1..], q);
    }
  }
}
