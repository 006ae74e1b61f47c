/**
 * The store routes: which gates each endpoint runs, the person registry
 * the handlers call (matching a record on id, store path and role tier),
 * and the handlers themselves, over a fixed set of store paths and the
 * person collection.
 */
module StoreRouter {
  import opened Wrappers
  import opened EmployeeSchema
  import opened Middleware
  import opened EmployeeRepo
  import opened Errors

  /** The ten endpoints under `/:storePath`. */
  datatype Endpoint =
    | GetManagers | PostManager | GetManager | DeleteManager | PutManager
    | GetEmployees | PostEmployee | GetEmployee | DeleteEmployee | PutEmployee

  /** A middleware an endpoint runs before its handler: a gate, or a set of validation rules. */
  datatype Stage = Authorization | ManagerOnly | DeepQuery | PostBodyRules | PutBodyRules

  /** The middleware chain of each endpoint, in order. */
  function Chain(ep: Endpoint): (c: seq<Stage>)
    ensures |c| >= 1 && c[0] == Authorization && Authorization !in c[1..]
    ensures ManagerOnly in c <==> ManagerGated(ep)
  {
    match ep
    case GetManagers => [Authorization, ManagerOnly, DeepQuery]
    case PostManager => [Authorization, ManagerOnly, PostBodyRules]
    case GetManager => [Authorization, ManagerOnly]
    case DeleteManager => [Authorization, ManagerOnly]
    case PutManager => [Authorization, ManagerOnly, PutBodyRules]
    case GetEmployees => [Authorization, DeepQuery]
    case PostEmployee => [Authorization, ManagerOnly, PostBodyRules]
    case GetEmployee => [Authorization]
    case DeleteEmployee => [Authorization, ManagerOnly]
    case PutEmployee => [Authorization, ManagerOnly, PutBodyRules]
  }

  /** Every endpoint except the two employee reads is behind the manager gate. */
  predicate ManagerGated(ep: Endpoint)
  {
    !(ep.GetEmployees? || ep.GetEmployee?)
  }

  /** Endpoints whose handlers never change the person collection. */
  predicate ReadOnly(ep: Endpoint)
  {
    ep.GetManagers? || ep.GetManager? || ep.GetEmployees? || ep.GetEmployee?
  }

  predicate IsManager(auth: Option<Principal>)
  {
    auth.Some? && auth.value.role == Manager
  }

  /**
   * A request as the handlers see it: the decoded principal, the route
   * parameters, the `deep` query parameter and the JSON body.
   */
  datatype Request = Request(auth: Option<Principal>, storePath: string, personId: string, deep: Option<string>, body: Fields)

  /** One stage's decision. Validation rules only record their verdict and always pass the request on. */
  function Gate(stage: Stage, req: Request): (d: Decision)
    ensures stage != Authorization && stage != ManagerOnly ==> d == Next
    ensures d == Next || d == Forbidden(OutOfScope) || d == Forbidden(ManagersOnly)
  {
    match stage
    case Authorization => Authorize(req.auth, Some(req.storePath))
    case ManagerOnly => ManagerGate(req.auth)
    case DeepQuery => Next
    case PostBodyRules => Next
    case PutBodyRules => Next
  }

  /** Runs a chain: the first stage that refuses answers for the whole chain. */
  function RunGuards(chain: seq<Stage>, req: Request): (d: Decision)
    ensures d == Next <==> forall k :: 0 <= k < |chain| ==> Gate(chain[k], req) == Next
    ensures d != Next ==> exists k :: 0 <= k < |chain| && Gate(chain[k], req) == d
                                   && forall j :: 0 <= j < k ==> Gate(chain[j], req) == Next
  {
    if chain == [] then Next
    else if Gate(chain[0], req) != Next then Gate(chain[0], req)
    else
      var rest := chain[1..];
      var d := RunGuards(rest, req);
      assert forall k :: 1 <= k < |chain| ==> chain[k] == rest[k - 1];
      assert d != Next ==> exists k :: 0 <= k < |chain| && Gate(chain[k], req) == d
                                       && forall j :: 0 <= j < k ==> Gate(chain[j], req) == Next
      by {
        if d != Next {
          var k :| 0 <= k < |rest| && Gate(rest[k], req) == d && forall j :: 0 <= j < k ==> Gate(rest[j], req) == Next;
          assert Gate(chain[k + 1], req) == d;
        }
      }
      d
  }

  /** The rules of both POST endpoints: a well-formed, non-empty email and a non-empty name of at most 100 characters. */
  predicate PostBodyValid(body: Fields, isEmail: string -> bool)
    ensures PostBodyValid(body, isEmail) ==> Present(body.name) && Present(body.email)
  {
    && body.email.Some? && isEmail(body.email.value) && body.email.value != ""
    && body.name.Some? && body.name.value != "" && |body.name.value| <= 100
  }

  /** The rules of both PUT endpoints; every field is optional, and a role must be manager or employee. */
  predicate PutBodyValid(body: Fields, isEmail: string -> bool)
    ensures PutBodyValid(body, isEmail) && body.role.Some? ==>
      ParseRole(body.role.value) == Some(Manager) || ParseRole(body.role.value) == Some(Employee)
  {
    && (body.email.None? || isEmail(body.email.value))
    && (body.name.None? || |body.name.value| <= 100)
    && (body.nodePath.None? || |body.nodePath.value| <= 10000)
    && (body.role.None? || body.role.value in [Tag(Manager), Tag(Employee)])
  }

  /** The `deep` query parameter is false when absent and otherwise its string's truthiness. */
  function DeepFlag(deep: Option<string>): (on: bool)
    ensures deep.None? ==> !on
    ensures deep.Some? ==> (on <==> |deep.value| > 0)
  {
    deep.Some? && deep.value != ""
  }

  /** A response body. */
  datatype Payload = One(person: Person) | Many(people: seq<Person>) | NoContent | ValidationErrors | ErrorBody(error: string)

  /** A handler either sends a response or passes an error on to the error handler. */
  datatype Outcome = Sent(status: int, payload: Payload) | Raised(err: AppError)

  /** The person the POST endpoints ask the registry to create; its path is supplied separately. */
  datatype NewPerson = NewPerson(email: Option<string>, name: Option<string>, role: Role)

  /** The error a failed insert raises. */
  function CreateFailure(e: CreateError): (err: AppError)
    ensures err.OtherError? && (err.name == "ValidationError" <==> e.Invalid?)
    ensures HandleErrors(err) == Delegate(err)
  {
    match e
    case Invalid(_) => OtherError("ValidationError")
    case DuplicateKey(_) => OtherError("MongoServerError")
  }

  /** The registry filter for a single person: the id, exactly the store path, and the role tier. */
  function ScopedFilter(path: string, id: string, role: Role): Filter
  {
    Filter(Some(id), Some(Exact(path)), Some(Tag(role)))
  }

  /** The record with id `id` at exactly `path` holding role `role`, if there is one. */
  function FindScoped(people: seq<Person>, path: string, id: string, role: Role): (r: Option<Person>)
    ensures r.Some? ==> r.value in people && r.value.id == id && r.value.nodePath == path && r.value.role == Tag(role)
    ensures r.None? ==> forall p :: p in people ==> !(p.id == id && p.nodePath == path && p.role == Tag(role))
  {
    match FindFirst(people, ScopedFilter(path, id, role))
    case None => None
    case Some(i) => Some(people[i])
  }

  /** With unique ids, the record found by id, path and role is the record found by id alone. */
  lemma ScopedHitIsIdHit(people: seq<Person>, path: string, id: string, role: Role, i: nat)
    requires UniqueIds(people)
    requires FindFirst(people, ScopedFilter(path, id, role)) == Some(i)
    ensures FindFirst(people, IdFilter(id)) == Some(i)
  {
    assert Matches(IdFilter(id), people[i]);
    var j := FindFirst(people, IdFilter(id));
    assert j.Some?;
    assert j.value <= i;
  }

  /**
   * What a create at a store path does: an unknown store raises
   * StoreNotFound, a document failing the schema or reusing an id raises the
   * store's error, and otherwise the person is appended with the store path
   * and the endpoint's role and sent back with 201.
   */
  predicate CreateOutcome(stores: set<string>, path: string, data: NewPerson, newId: string,
                          before: seq<Person>, after: seq<Person>, out: Outcome)
    ensures CreateOutcome(stores, path, data, newId, before, after, out) ==>
      (out.Sent? <==> after != before) && (after == before || (|after| == |before| + 1 && after[..|before|] == before))
  {
    if path !in stores then
      out == Raised(StoreNotFoundError(path)) && after == before
    else if !(Present(data.name) && Present(data.email)) then
      out == Raised(OtherError("ValidationError")) && after == before
    else if newId in Ids(before) then
      out == Raised(OtherError("MongoServerError")) && after == before
    else
      var p := Person(newId, data.name.value, data.email.value, path, Tag(data.role));
      out == Sent(201, One(p)) && after == before + [p]
  }

  /** What a GET of one manager or employee sends: the record matching id, path and role tier, or PersonNotFound. */
  predicate GetOneOutcome(people: seq<Person>, req: Request, role: Role, out: Outcome)
  {
    match FindScoped(people, req.storePath, req.personId, role)
    case None => out == Raised(PersonNotFoundError(req.storePath, req.personId))
    case Some(p) => out == Sent(200, One(p))
  }

  /** What a DELETE does: the first record matching id, path and role tier is removed and 204 sent, or PersonNotFound and no change. */
  predicate DeleteOutcome(req: Request, role: Role, before: seq<Person>, after: seq<Person>, out: Outcome)
  {
    match FindFirst(before, ScopedFilter(req.storePath, req.personId, role))
    case None => out == Raised(PersonNotFoundError(req.storePath, req.personId)) && after == before
    case Some(i) => i < |before| && out == Sent(204, NoContent) && after == RemoveAt(before, i)
  }

  /** What a PUT does: the body is written into the first record matching id, path and role tier and sent back, or PersonNotFound and no change. */
  predicate UpdateOutcome(req: Request, role: Role, before: seq<Person>, after: seq<Person>, out: Outcome)
  {
    match FindFirst(before, ScopedFilter(req.storePath, req.personId, role))
    case None => out == Raised(PersonNotFoundError(req.storePath, req.personId)) && after == before
    case Some(i) =>
      && i < |before|
      && out == Sent(200, One(Patched(before[i], req.body)))
      && after == before[i := Patched(before[i], req.body)]
  }

  /**
   * What each endpoint's handler does once its chain has passed, from the
   * collection `before` to the collection `after`.
   */
  predicate EndpointOutcome(ep: Endpoint, req: Request, newId: string, stores: set<string>, isEmail: string -> bool,
                            before: seq<Person>, after: seq<Person>, out: Outcome)
    ensures EndpointOutcome(ep, req, newId, stores, isEmail, before, after, out) && ReadOnly(ep) ==> after == before
    ensures EndpointOutcome(ep, req, newId, stores, isEmail, before, after, out) && after != before ==> out.Sent?
    ensures EndpointOutcome(ep, req, newId, stores, isEmail, before, after, out) ==>
      |before| - 1 <= |after| <= |before| + 1
  {
    match ep
    case GetManagers =>
      && after == before
      && out == if req.storePath !in stores then Raised(StoreNotFoundError(req.storePath))
                else Sent(200, Many(Select(before, ManagersFilter(req.storePath, DeepFlag(req.deep)))))
    case PostManager =>
      if !PostBodyValid(req.body, isEmail) then out == Sent(400, ValidationErrors) && after == before
      else CreateOutcome(stores, req.storePath, NewPerson(req.body.email, req.body.name, Manager), newId, before, after, out)
    case GetManager => after == before && GetOneOutcome(before, req, Manager, out)
    case DeleteManager => DeleteOutcome(req, Manager, before, after, out)
    case PutManager => UpdateOutcome(req, Manager, before, after, out)
    case GetEmployees =>
      && after == before
      && out == Sent(200, Many(Select(before, EmployeesFilter(req.storePath, DeepFlag(req.deep)))))
    case PostEmployee =>
      CreateOutcome(stores, req.storePath, NewPerson(req.body.email, req.body.name, Employee), newId, before, after, out)
    case GetEmployee => after == before && GetOneOutcome(before, req, Employee, out)
    case DeleteEmployee => DeleteOutcome(req, Employee, before, after, out)
    case PutEmployee => UpdateOutcome(req, Employee, before, after, out)
  }

  /**
   * The person registry with the signatures the handlers call, over the
   * person repository: single records are addressed by id, store path and
   * role tier together.
   */
  class ScopedRegistry {
    const repo: MongoRepo

    ghost predicate Valid()
      reads this, repo
    {
      repo.Valid()
    }

    constructor (repo: MongoRepo)
      requires repo.Valid()
      ensures this.repo == repo && Valid()
    {
      this.repo := repo;
    }

    /** Creates a person at `path` with the given role. */
    method Create(path: string, data: NewPerson, newId: string) returns (r: Result<Person, CreateError>)
      requires Valid()
      modifies repo
      ensures Valid()
      ensures r.Ok? <==> path != "" && Present(data.name) && Present(data.email) && newId !in Ids(old(repo.people))
      ensures r.Ok? ==> r.value == Person(newId, data.name.value, data.email.value, path, Tag(data.role))
      ensures r.Ok? ==> repo.people == old(repo.people) + [r.value]
      ensures r.Err? ==> repo.people == old(repo.people)
      ensures r.Err? ==> (r.error.DuplicateKey? <==> path != "" && Present(data.name) && Present(data.email))
    {
      var fields := Fields(data.name, data.email, Some(path), Some(Tag(data.role)));
      TagRoundTrip(data.role);
      r := repo.Create(fields, newId);
    }

    /** The manager with id `id` at exactly `path`. */
    method Manager(path: string, id: string) returns (r: Option<Person>)
      ensures r == FindScoped(repo.people, path, id, Role.Manager)
    {
      r := FindScoped(repo.people, path, id, Role.Manager);
    }

    /** The employee with id `id` at exactly `path`. */
    method Employee(path: string, id: string) returns (r: Option<Person>)
      ensures r == FindScoped(repo.people, path, id, Role.Employee)
    {
      r := FindScoped(repo.people, path, id, Role.Employee);
    }

    /** The managers at `path`, shallow or deep. */
    method Managers(path: string, deep: bool) returns (r: seq<Person>)
      ensures r == Select(repo.people, ManagersFilter(path, deep))
    {
      r := repo.Managers(path, deep);
    }

    /** The employees at `path`, shallow or deep. */
    method Employees(path: string, deep: bool) returns (r: seq<Person>)
      ensures r == Select(repo.people, EmployeesFilter(path, deep))
    {
      r := repo.Employees(path, deep);
    }

    /** Deletes the person with id `id` at `path` holding `role`; reports whether there was one. */
    method Delete(path: string, id: string, role: Role) returns (deleted: bool)
      requires Valid()
      modifies repo
      ensures Valid()
      ensures deleted <==> FindScoped(old(repo.people), path, id, role).Some?
      ensures forall p :: p in repo.people <==> p in old(repo.people) && !(deleted && p.id == id)
      ensures !deleted ==> repo.people == old(repo.people)
      ensures match FindFirst(old(repo.people), ScopedFilter(path, id, role))
              case None => true
              case Some(i) => i < |old(repo.people)| && repo.people == RemoveAt(old(repo.people), i)
    {
      var hit := FindFirst(repo.people, ScopedFilter(path, id, role));
      if hit.None? {
        return false;
      }
      ScopedHitIsIdHit(repo.people, path, id, role, hit.value);
      repo.Delete(id);
      deleted := true;
    }

    /** Writes `body` into the person with id `id` at `path` holding `role`, and returns it; nothing when there is none. */
    method Update(path: string, id: string, role: Role, body: Fields) returns (r: Option<Person>)
      requires Valid()
      modifies repo
      ensures Valid()
      ensures r.None? <==> FindScoped(old(repo.people), path, id, role).None?
      ensures r.None? ==> repo.people == old(repo.people)
      ensures r.Some? ==> r.value == Patched(FindScoped(old(repo.people), path, id, role).value, body)
      ensures match FindFirst(old(repo.people), ScopedFilter(path, id, role))
              case None => true
              case Some(i) => repo.people == old(repo.people)[i := Patched(old(repo.people)[i], body)]
    {
      var hit := FindFirst(repo.people, ScopedFilter(path, id, role));
      if hit.None? {
        return None;
      }
      ScopedHitIsIdHit(repo.people, path, id, role, hit.value);
      r := repo.Update(id, body);
    }
  }

  /**
   * The store router: a fixed set of store paths, the person registry, and
   * the email check of the validation rules.
   */
  class Router {
    const stores: set<string>
    const employees: ScopedRegistry
    const isEmail: string -> bool

    ghost predicate Valid()
      reads this, employees, employees.repo
    {
      "" !in stores && employees.Valid()
    }

    constructor (stores: set<string>, employees: ScopedRegistry, isEmail: string -> bool)
      requires "" !in stores && employees.Valid()
      ensures this.stores == stores && this.employees == employees && this.isEmail == isEmail
      ensures Valid()
    {
      this.stores := stores;
      this.employees := employees;
      this.isEmail := isEmail;
    }

    /** Looks the store up and creates the person there; shared tail of both POST handlers. */
    method CreateAtStore(path: string, data: NewPerson, newId: string) returns (out: Outcome)
      requires Valid()
      modifies employees.repo
      ensures Valid()
      ensures CreateOutcome(stores, path, data, newId, old(employees.repo.people), employees.repo.people, out)
    {
      if path !in stores {
        return Raised(StoreNotFoundError(path));
      }
      var created := employees.Create(path, data, newId);
      if created.Err? {
        return Raised(CreateFailure(created.error));
      }
      out := Sent(201, One(created.value));
    }

    /** POST managers: 400 on a rule violation, before anything else; otherwise a create with role Manager. */
    method HandlePostManager(req: Request, newId: string) returns (out: Outcome)
      requires Valid()
      modifies employees.repo
      ensures Valid()
      ensures !PostBodyValid(req.body, isEmail) ==>
        out == Sent(400, ValidationErrors) && employees.repo.people == old(employees.repo.people)
      ensures PostBodyValid(req.body, isEmail) ==>
        CreateOutcome(stores, req.storePath, NewPerson(req.body.email, req.body.name, Manager), newId,
                      old(employees.repo.people), employees.repo.people, out)
    {
      if !PostBodyValid(req.body, isEmail) {
        return Sent(400, ValidationErrors);
      }
      out := CreateAtStore(req.storePath, NewPerson(req.body.email, req.body.name, Manager), newId);
    }

    /** POST employees: the rules' verdict is not consulted; a create with role Employee. */
    method HandlePostEmployee(req: Request, newId: string) returns (out: Outcome)
      requires Valid()
      modifies employees.repo
      ensures Valid()
      ensures CreateOutcome(stores, req.storePath, NewPerson(req.body.email, req.body.name, Employee), newId,
                            old(employees.repo.people), employees.repo.people, out)
    {
      out := CreateAtStore(req.storePath, NewPerson(req.body.email, req.body.name, Employee), newId);
    }

    /** GET managers: StoreNotFound for an unknown store, otherwise the managers there. */
    method HandleGetManagers(req: Request) returns (out: Outcome)
      ensures req.storePath !in stores ==> out == Raised(StoreNotFoundError(req.storePath))
      ensures req.storePath in stores ==>
        out == Sent(200, Many(Select(employees.repo.people, ManagersFilter(req.storePath, DeepFlag(req.deep)))))
    {
      if req.storePath !in stores {
        return Raised(StoreNotFoundError(req.storePath));
      }
      var found := employees.Managers(req.storePath, DeepFlag(req.deep));
      out := Sent(200, Many(found));
    }

    /** GET employees: no store lookup; for an unknown store, 200 with whatever the filter selects there. */
    method HandleGetEmployees(req: Request) returns (out: Outcome)
      ensures out == Sent(200, Many(Select(employees.repo.people, EmployeesFilter(req.storePath, DeepFlag(req.deep)))))
    {
      var found := employees.Employees(req.storePath, DeepFlag(req.deep));
      out := Sent(200, Many(found));
    }

    /** GET one manager or employee: the record with that id, path and role tier, or PersonNotFound. */
    method HandleGetOne(req: Request, role: Role) returns (out: Outcome)
      requires role == Manager || role == Employee
      ensures GetOneOutcome(employees.repo.people, req, role, out)
    {
      var found: Option<Person>;
      if role == Manager {
        found := employees.Manager(req.storePath, req.personId);
      } else {
        found := employees.Employee(req.storePath, req.personId);
      }
      if found.None? {
        return Raised(PersonNotFoundError(req.storePath, req.personId));
      }
      out := Sent(200, One(found.value));
    }

    /** DELETE one manager or employee: 204 when a record with that id, path and role tier was removed, else PersonNotFound. */
    method HandleDelete(req: Request, role: Role) returns (out: Outcome)
      requires Valid()
      modifies employees.repo
      ensures Valid()
      ensures DeleteOutcome(req, role, old(employees.repo.people), employees.repo.people, out)
      ensures forall p :: p in employees.repo.people <==>
        p in old(employees.repo.people) && !(out.Sent? && p.id == req.personId)
      ensures out.Raised? ==> employees.repo.people == old(employees.repo.people)
    {
      var deleted := employees.Delete(req.storePath, req.personId, role);
      if !deleted {
        return Raised(PersonNotFoundError(req.storePath, req.personId));
      }
      out := Sent(204, NoContent);
    }

    /** PUT one manager or employee: the rules' verdict is not consulted; the body is written into the matching record. */
    method HandleUpdate(req: Request, role: Role) returns (out: Outcome)
      requires Valid()
      modifies employees.repo
      ensures Valid()
      ensures UpdateOutcome(req, role, old(employees.repo.people), employees.repo.people, out)
    {
      var updated := employees.Update(req.storePath, req.personId, role, req.body);
      if updated.None? {
        return Raised(PersonNotFoundError(req.storePath, req.personId));
      }
      out := Sent(200, One(updated.value));
    }

    /** A request to an endpoint: its middleware chain, then its handler. */
    method Handle(ep: Endpoint, req: Request, newId: string) returns (out: Outcome)
      requires Valid()
      modifies employees.repo
      ensures Valid()
      ensures RunGuards(Chain(ep), req).Forbidden? ==>
        && out == Sent(403, ErrorBody(RunGuards(Chain(ep), req).error))
        && employees.repo.people == old(employees.repo.people)
      ensures ManagerGated(ep) && !IsManager(req.auth) ==>
        && out.Sent? && out.status == 403
        && employees.repo.people == old(employees.repo.people)
      ensures RunGuards(Chain(ep), req) == Next ==>
        EndpointOutcome(ep, req, newId, stores, isEmail, old(employees.repo.people), employees.repo.people, out)
      ensures ReadOnly(ep) ==> employees.repo.people == old(employees.repo.people)
      ensures out.Sent? && out.status == 201 ==>
        && (ep.PostManager? || ep.PostEmployee?)
        && out.payload.One?
        && out.payload.person.nodePath == req.storePath
        && out.payload.person.role == Tag(if ep.PostManager? then Manager else Employee)
        && employees.repo.people == old(employees.repo.people) + [out.payload.person]
    {
      var d := RunGuards(Chain(ep), req);
      if d.Forbidden? {
        return Sent(403, ErrorBody(d.error));
      }
      if ManagerGated(ep) {
        GatedChainsRequireManager(ep, req);
      }
      match ep {
        case GetManagers => out := HandleGetManagers(req);
        case PostManager => out := HandlePostManager(req, newId);
        case GetManager => out := HandleGetOne(req, Manager);
        case DeleteManager => out := HandleDelete(req, Manager);
        case PutManager => out := HandleUpdate(req, Manager);
        case GetEmployees => out := HandleGetEmployees(req);
        case PostEmployee => out := HandlePostEmployee(req, newId);
        case GetEmployee => out := HandleGetOne(req, Employee);
        case DeleteEmployee => out := HandleDelete(req, Employee);
        case PutEmployee => out := HandleUpdate(req, Employee);
      }
    }
  }

  /** Every chain runs the scope gate first. */
  lemma AuthorizationFirst(ep: Endpoint)
    ensures |Chain(ep)| >= 1 && Chain(ep)[0] == Authorization
  {
  }

  /** A request that gets through a manager-gated chain comes from an in-scope manager. */
  lemma GatedChainsRequireManager(ep: Endpoint, req: Request)
    requires ManagerGated(ep)
    requires RunGuards(Chain(ep), req) == Next
    ensures IsManager(req.auth)
    ensures Authorize(req.auth, Some(req.storePath)) == Next
  {
    assert Gate(Chain(ep)[0], req) == Next;
    assert Gate(Chain(ep)[1], req) == Next;
  }

  /** A principal that is not a manager is stopped with 403 before any manager-gated handler. */
  lemma GatedChainsStopNonManagers(ep: Endpoint, req: Request)
    requires ManagerGated(ep)
    requires !IsManager(req.auth)
    ensures RunGuards(Chain(ep), req) in {Forbidden(OutOfScope), Forbidden(ManagersOnly)}
  {
    if RunGuards(Chain(ep), req) == Next {
      GatedChainsRequireManager(ep, req);
    }
  }

  /** An out-of-scope request is stopped by the scope gate on every endpoint. */
  lemma OutOfScopeStopped(ep: Endpoint, req: Request)
    requires Authorize(req.auth, Some(req.storePath)) != Next
    ensures RunGuards(Chain(ep), req) == Forbidden(OutOfScope)
  {
    AuthorizationFirst(ep);
  }

  /** The two employee reads admit any in-scope principal, employees included. */
  lemma EmployeeReadsAdmitAnyRole(ep: Endpoint, req: Request)
    requires ep.GetEmployees? || ep.GetEmployee?
    requires req.auth.Some? && req.auth.value.nodePath != "" && req.auth.value.nodePath <= req.storePath
    ensures RunGuards(Chain(ep), req) == Next
  {
  }

  /** `deep` selects the pattern query for any non-empty value, "false" included, and the exact query when absent. */
  lemma DeepIsTruthiness()
    ensures !DeepFlag(None) && !DeepFlag(Some(""))
    ensures DeepFlag(Some("false")) && DeepFlag(Some("true")) && DeepFlag(Some("0"))
    ensures forall v :: DeepFlag(Some(v)) <==> v != ""
  {
  }

  /** The update rules admit only the manager and employee tags as a role; superuser is refused. */
  lemma PutRulesRefuseSuperuser(body: Fields, isEmail: string -> bool)
    requires body.role == Some("superuser")
    ensures !PutBodyValid(body, isEmail)
  {
  }

  /** A POST that answers 201 has put the person at the requested store path with the endpoint's role, whatever the body says. */
  lemma CreateForcesPathAndRole(ep: Endpoint, req: Request, newId: string, stores: set<string>, isEmail: string -> bool,
                                before: seq<Person>, after: seq<Person>, out: Outcome)
    requires ep.PostManager? || ep.PostEmployee?
    requires EndpointOutcome(ep, req, newId, stores, isEmail, before, after, out)
    requires out.Sent? && out.status == 201
    ensures req.storePath in stores && out.payload.One?
    ensures out.payload.person.nodePath == req.storePath
    ensures out.payload.person.role == Tag(if ep.PostManager? then Manager else Employee)
    ensures out.payload.person.id == newId && newId !in Ids(before)
    ensures after == before + [out.payload.person]
  {
  }

  /**
   * GET managers and both POSTs (once POST managers' rules pass) raise
   * StoreNotFound for an unregistered store and change nothing; GET
   * employees has no such check and answers 200.
   */
  lemma UnknownStoreCreatesNothing(ep: Endpoint, req: Request, newId: string, stores: set<string>, isEmail: string -> bool,
                                   before: seq<Person>, after: seq<Person>, out: Outcome)
    requires req.storePath !in stores
    requires EndpointOutcome(ep, req, newId, stores, isEmail, before, after, out)
    ensures ep.GetManagers? || ep.PostEmployee? || (ep.PostManager? && PostBodyValid(req.body, isEmail)) ==>
      out == Raised(StoreNotFoundError(req.storePath)) && after == before
    ensures ep.GetEmployees? ==> out.Sent? && out.status == 200
  {
  }

  /**
   * With unique ids, no endpoint removes or alters a record whose id is not
   * the request's person id: creates append, deletes and updates act on the
   * one record with that id.
   */
  lemma {:induction false} OthersUntouched(ep: Endpoint, req: Request, newId: string, stores: set<string>, isEmail: string -> bool,
                                           before: seq<Person>, after: seq<Person>, out: Outcome)
    requires UniqueIds(before)
    requires EndpointOutcome(ep, req, newId, stores, isEmail, before, after, out)
    ensures forall p :: p in before && p.id != req.personId ==> p in after
  {
    var role := if ep.DeleteManager? || ep.PutManager? then Manager else Employee;
    var hit := FindFirst(before, ScopedFilter(req.storePath, req.personId, role));
    if (ep.DeleteManager? || ep.DeleteEmployee?) && hit.Some? {
      ScopedHitIsIdHit(before, req.storePath, req.personId, role, hit.value);
      RemoveById(before, req.personId, hit.value);
    } else if (ep.PutManager? || ep.PutEmployee?) && hit.Some? {
      var i := hit.value;
      forall p | p in before && p.id != req.personId
        ensures p in after
      {
        var k :| 0 <= k < |before| && before[k] == p;
        assert k != i;
        assert after[k] == p;
      }
    }
  }

  /** Deleting through the managers endpoint never removes a record whose role is not "manager". */
  lemma WrongTierNotFound(people: seq<Person>, path: string, id: string)
    requires forall p :: p in people && p.id == id ==> p.role == "employee"
    ensures FindScoped(people, path, id, Manager).None?
  {
  }
}
