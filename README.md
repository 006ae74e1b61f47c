# Scoped authorization and person queries of the grocery store API

This project models, in Dafny, the part of the grocery store API that decides
who may act on which store and which people a query returns. The organisation
is a tree of stores named by paths such as `srbija.grad-beograd.vracar`. Every
person (employee, manager or superuser) is assigned to one store path.

- `EmployeeSchema` (employee.dfy): the `Role` enumeration and its string tags, the
  person record, and the schema every new person document must satisfy.
- `Middleware` (middleware.dfy): the scope gate (`Authorize`) and the manager gate
  (`ManagerGate`). Both are total decisions on the principal decoded from the bearer
  token. The scope gate tests whether the target store path begins with the
  principal's node path, as plain strings.
- `DeepMatch` (deep_match.dfy): what a "deep" query matches. The query path is used
  as an unanchored regular expression. For path characters, `.` is a one-character
  wildcard and every other character matches itself.
- `EmployeeRepo` (repo.dfy): query filters and the records a find selects. Also the
  repository object `MongoRepo`, whose `people` sequence is the person collection.
  Its create, delete and update change that sequence in place.
- `Errors` (errors.dfy): the not-found errors, their message templates (proved to
  read back), and the error handler's mapping to 401, 404 or "hand on".
- `StoreRouter` (router.dfy): the middleware chain of each of the ten store
  endpoints. The person registry with the signatures the handlers call
  (`ScopedRegistry`, built on `MongoRepo`). The `Router` class, whose handler
  methods run over a fixed set of store paths and the person collection.

## Where the code departs from the intended design

The model follows the code. In these places the code differs from the design
the system describes:

- Scope is a string prefix test, not a comparison by path segment. A principal at
  `a.b` may act on `a.bc`. There is no superuser bypass: a superuser is refused
  by the manager gate like an employee.
- A deep query is an unanchored pattern match, not "this node and its
  descendants". It also returns people whose path merely contains the query
  path, and `.` matches any character.
- GET employees does not check that the store exists. An unknown store gives
  200 with whatever the filter selects: people moved there by an update, or,
  for a deep query, everyone whose path the unknown path matches as a pattern.
- POST employees and both PUT endpoints run validation rules but never look at
  the result. Only POST managers answers 400.
- An update is not checked against the schema or the caller's scope. It may move
  a person to any path or store any role string. `Person.role` is therefore kept
  as the stored string. A person holding such a role string signs in with it, and
  both gates treat that principal exactly as an employee; `Middleware.Principal`
  carries a `Role`, so the model gives such a principal the role Employee.
- The store path of a deep query comes from the URL and is compiled as a regular
  expression unchecked. The scope gate only tests that it begins with the
  caller's node path, so an in-scope employee can send
  `/srbija.grad-beograd.vracar|/employees?deep=1`: the pattern has an empty
  alternative, matches every node path, and the query returns every employee of
  the organisation. The model treats `|` as an ordinary character (see
  "## Left out") and so does not exhibit this escape.
- The handlers call the person registry with signatures that `MongoRepo` does not
  have: `create(path, data)`, `delete(path, id, role)`, `update(path, id, role, body)`,
  `manager(path, id)` and `employee(path, id)`. `ScopedRegistry` gives them the
  meaning their arguments imply: a record is addressed by id, exact store path and
  role tier together. No match gives null or false.

## Model

| member | source | states |
|---|---|---|
| `EmployeeSchema.ParseRole` | src/employee/employee.ts:3-7 | a string denotes a role exactly when it is that role's tag; any other string denotes none |
| `EmployeeSchema.TagRoundTrip` | src/employee/employee.ts:3-7 | every role's tag reads back as that role |
| `EmployeeSchema.Tag` | src/employee/employee.ts:3-7 | the role Employee is stored as "employee", Manager as "manager" and SuperUser as "superuser", and no role shares another's tag |
| `EmployeeSchema.TagInjective` | src/employee/employee.ts:3-7 | the tags "employee", "manager", "superuser" are pairwise distinct |
| `EmployeeSchema.Violations` | src/employee/employee.ts:16-21 | a path is reported exactly when it is missing or empty; role is also reported when it is not one of the three tags |
| `EmployeeSchema.Validate` | src/employee/employee.ts:16-21 | a document is accepted iff it violates no path; the person then conforms to the schema, has the given id and exactly the document's fields |
| `EmployeeSchema.OnlyTagsAreRoles` | src/employee/employee.ts:20 | a role string other than the three tags is rejected |
| `EmployeeSchema.AllPathsRequired` | src/employee/employee.ts:17-20 | a document lacking name, email, nodePath or role is rejected |
| `Middleware.StartsWith` | src/auth/middleware.ts:30 | the character-wise startsWith test holds iff the prefix is a sequence prefix of the string |
| `Middleware.ManagerGate` | src/auth/middleware.ts:11-20 | passes iff a principal is present with role Manager; otherwise 403 "Managers only!" |
| `Middleware.Authorize` | src/auth/middleware.ts:22-35 | passes iff the principal has a non-empty node path and the store path is absent, empty or begins with it; otherwise 403 "Unauthorized to access this node" |
| `Middleware.NonManagersStopped` | src/auth/middleware.ts:16-19 | employees, superusers and a missing principal all get 403 "Managers only!" |
| `Middleware.NoNodePathDenied` | src/auth/middleware.ts:27-32 | a missing principal or empty node path is refused whatever the target |
| `Middleware.NoTargetAllowed` | src/auth/middleware.ts:29-34 | with no or an empty store path, any principal with a node path passes |
| `Middleware.AuthorizeReflexive` | src/auth/middleware.ts:30 | a principal may always act on its own node path |
| `Middleware.AuthorizeDownward` | src/auth/middleware.ts:30 | access to a non-empty path extends to the path followed by any suffix |
| `Middleware.NoUpwardAccess` | src/auth/middleware.ts:29-32 | a non-empty target shorter than the principal's node path, such as an ancestor, is refused |
| `Middleware.SiblingByStringPrefix` | src/auth/middleware.ts:30 | a principal at "a.b" is admitted to the sibling "a.bc", which is not under "a.b." |
| `Middleware.AuthorizeIgnoresRole` | src/auth/middleware.ts:27-31 | the scope decision is the same for every role |
| `DeepMatch.SearchFrom` | src/employee/repo.ts:12 | the scan from an index finds a match iff the pattern occurs at some index at or after it |
| `DeepMatch.RegexTest` | src/employee/repo.ts:12 | the deep path test holds iff the pattern occurs somewhere in the path, with `.` matching any character |
| `DeepMatch.PrefixMatches` | src/employee/repo.ts:12 | a path that begins with the query path matches it |
| `DeepMatch.SelfMatches` | src/employee/repo.ts:12 | every path matches itself as a pattern |
| `DeepMatch.InfixMatches` | src/employee/repo.ts:39 | the pattern matches wherever it sits in the path, not only at the start |
| `DeepMatch.DotIsWildcard` | src/employee/repo.ts:48 | "a.b" matches "aXb": `.` is a one-character wildcard |
| `EmployeeRepo.Select` | src/employee/repo.ts:17 | a find returns exactly the collection's records that match the filter, each no more often than the collection holds it |
| `EmployeeRepo.FindFrom` | src/employee/repo.ts:34 | finds the first record at or after an index that matches the filter, or reports that none does |
| `EmployeeRepo.ShallowIsExact` | src/employee/repo.ts:10-19 | a shallow query returns exactly the records whose nodePath equals the path, of the given role if one is given |
| `EmployeeRepo.DeepIsPattern` | src/employee/repo.ts:10-19 | a deep query returns exactly the records whose nodePath matches the path as an unanchored pattern, of the given role if any |
| `EmployeeRepo.ShallowWithinDeep` | src/employee/repo.ts:12 | for the same path and role, every shallow result is also a deep result |
| `EmployeeRepo.DeepIsUnanchored` | src/employee/repo.ts:12 | a record whose path merely contains the query path is in the deep result |
| `EmployeeRepo.DeepCoversDescendants` | src/employee/repo.ts:12 | every record whose path begins with the query path is in the deep result |
| `EmployeeRepo.RoleQueriesAreRoleOnly` | src/employee/repo.ts:37-53 | managers() returns only "manager" records and employees() only "employee" records, at any depth |
| `EmployeeRepo.PathFilter` | src/employee/repo.ts:12 | the shallow condition holds exactly of the query path itself, the deep condition exactly of the paths the query path matches as a pattern; the query path always meets its own condition |
| `EmployeeRepo.AtFilter` | src/employee/repo.ts:11-16 | a record matches the filter of `at` iff its nodePath meets the shallow or deep condition and, when a role is given, it has that role |
| `EmployeeRepo.ManagersFilter` | src/employee/repo.ts:38-41 | the filter of `managers` is the filter of `at` with the manager role |
| `EmployeeRepo.EmployeesFilter` | src/employee/repo.ts:47-50 | the filter of `employees` is the filter of `at` with the employee role |
| `EmployeeRepo.Patched` | src/employee/repo.ts:34 | an update keeps the id, writes every given field and keeps every field it omits, so with no fields given the record is unchanged |
| `EmployeeRepo.PatchIdempotent` | src/employee/repo.ts:34 | writing the same fields twice gives the same record as writing them once |
| `EmployeeRepo.RemoveById` | src/employee/repo.ts:26-28 | with unique ids, removing the first record with an id leaves exactly the records with other ids, ids still unique |
| `EmployeeRepo.MongoRepo.Get` | src/employee/repo.ts:5-8 | returns the whole collection |
| `EmployeeRepo.MongoRepo.At` | src/employee/repo.ts:10-19 | returns exactly the records whose nodePath satisfies the shallow or deep condition and, when a role is given, that role; changes nothing |
| `EmployeeRepo.MongoRepo.Managers` | src/employee/repo.ts:37-44 | returns exactly the "manager" records satisfying the path condition; changes nothing |
| `EmployeeRepo.MongoRepo.Employees` | src/employee/repo.ts:46-53 | returns exactly the "employee" records satisfying the path condition; changes nothing |
| `EmployeeRepo.MongoRepo.Create` | src/employee/repo.ts:21-24 | a schema violation or a used id is refused with the collection unchanged; otherwise the conforming person is appended and returned |
| `EmployeeRepo.MongoRepo.Delete` | src/employee/repo.ts:26-28 | removes the record with the id if any; afterwards exactly the records with other ids remain |
| `EmployeeRepo.MongoRepo.Update` | src/employee/repo.ts:30-35 | null iff no record has the id; otherwise that record alone gets the given fields and is returned |
| `Errors.HandleErrors` | src/store/errors.ts:3-19 | 401 "invalid token" iff the error is named UnauthorizedError; 404 with the message iff a not-found error; anything else handed on unchanged |
| `Errors.PersonNotFoundMessage` | src/store/errors.ts:23 | the whole template: "id=", the person id, " not found at storePath=", then the store path |
| `Errors.StoreNotFoundMessage` | src/store/errors.ts:29 | the message is the store path between "storePath=" and " not found" |
| `Errors.ErrorName` | src/store/errors.ts:21-31 | the two not-found errors carry the inherited name "Error"; any other error keeps its own name |
| `Errors.ParseStoreNotFound` | src/store/errors.ts:29 | a message it accepts is exactly "storePath=<path> not found" for the path it returns |
| `Errors.StoreNotFoundRoundTrip` | src/store/errors.ts:27-31 | the store-not-found message gives back its store path |
| `Errors.ParsePersonNotFound` | src/store/errors.ts:23 | a message it accepts is exactly "id=<id> not found at storePath=<path>" for the path and id it returns |
| `Errors.PersonNotFoundRoundTrip` | src/store/errors.ts:21-25 | the person-not-found message gives back its store path and id, for ids without spaces |
| `Errors.NotFoundMessagesDiffer` | src/store/errors.ts:21-31 | a store-not-found message never equals a person-not-found message |
| `Errors.NotFoundIs404` | src/store/errors.ts:11-15 | both not-found errors answer 404 with their own message |
| `StoreRouter.Chain` | src/store/router.ts:22-81 | every endpoint's chain starts with the scope gate and runs it once; the manager gate is in the chain of every endpoint except the two employee reads |
| `StoreRouter.PostBodyValid` | src/store/router.ts:34-35 | a body passing the POST rules has a non-empty name and email, as the schema requires |
| `StoreRouter.PutBodyValid` | src/store/router.ts:46-49 | a body passing the PUT rules names no role, or the manager or employee role |
| `StoreRouter.DeepFlag` | src/store/router.ts:129-132 | deep is off when the parameter is absent; otherwise on iff its string is non-empty |
| `StoreRouter.CreateFailure` | src/store/router.ts:95-108 | a failed insert raises the store's ValidationError or MongoServerError, which the error handler hands on |
| `StoreRouter.Gate` | src/store/router.ts:22-81 | the validation rules and the deep default always pass the request on; the only refusals are the scope and managers-only 403s |
| `StoreRouter.RunGuards` | src/store/router.ts:22-81 | a chain passes iff every gate in it passes; otherwise it answers with the refusal of the first gate that refuses, every earlier gate having passed |
| `StoreRouter.AuthorizationFirst` | src/store/router.ts:22-81 | every endpoint runs the scope gate first |
| `StoreRouter.GatedChainsRequireManager` | src/store/router.ts:22-81 | a request that gets through a manager-gated chain comes from an in-scope manager |
| `StoreRouter.GatedChainsStopNonManagers` | src/store/router.ts:22-81 | a non-manager is refused by every manager-gated chain, with one of the two 403 messages |
| `StoreRouter.OutOfScopeStopped` | src/store/router.ts:22-28 | an out-of-scope request is refused with the scope message on every endpoint |
| `StoreRouter.EmployeeReadsAdmitAnyRole` | src/store/router.ts:54-71 | GET employees and GET one employee admit any in-scope principal, employees included |
| `StoreRouter.DeepIsTruthiness` | src/store/router.ts:129-132 | deep is off when absent or empty and on for every other value, "false" and "0" included |
| `StoreRouter.PutRulesRefuseSuperuser` | src/store/router.ts:49 | the update rules reject role "superuser" |
| `StoreRouter.FindScoped` | src/store/router.ts:145-148 | a found record has the requested id, exactly the store path and the role's tag; none found means no record has all three |
| `StoreRouter.CreateOutcome` | src/store/router.ts:95-108 | a create either changes nothing or appends exactly one record, and it sends a response exactly when it appends |
| `StoreRouter.EndpointOutcome` | src/store/router.ts:83-333 | after a passing chain, the reads change nothing, any change comes with a sent response, and the collection grows or shrinks by at most one record |
| `StoreRouter.CreateForcesPathAndRole` | src/store/router.ts:95-106 | a POST that answers 201 used a registered store and an unused id, and appended a person at the requested store path with the endpoint's role |
| `StoreRouter.UnknownStoreCreatesNothing` | src/store/router.ts:83-137 | at an unregistered store, GET managers and the POSTs (past POST managers' rules) raise StoreNotFound and change nothing, while GET employees answers 200 |
| `StoreRouter.OthersUntouched` | src/store/router.ts:83-333 | with unique ids, no endpoint removes or alters a record whose id is not the request's person id |
| `StoreRouter.WrongTierNotFound` | src/store/router.ts:195-206 | the managers endpoint finds no record for an id that only an employee holds |
| `StoreRouter.ScopedRegistry.Create` | src/store/router.ts:100-104 | succeeds iff the path, name and email are non-empty and the id is unused; the person gets the path and the role tag; a failure changes nothing |
| `StoreRouter.ScopedRegistry.Manager` | src/store/router.ts:145-148 | the manager with the id at exactly the path, if any |
| `StoreRouter.ScopedRegistry.Employee` | src/store/router.ts:243-246 | the employee with the id at exactly the path, if any |
| `StoreRouter.ScopedRegistry.Managers` | src/store/router.ts:129-132 | the managers the repository's managers query selects |
| `StoreRouter.ScopedRegistry.Employees` | src/store/router.ts:226-229 | the employees the repository's employees query selects |
| `StoreRouter.ScopedRegistry.Delete` | src/store/router.ts:195-199 | true iff a record matches id, path and role; the first such record is removed from its position and the rest keep their order; false changes nothing |
| `StoreRouter.ScopedRegistry.Update` | src/store/router.ts:169-174 | null iff no record matches id, path and role; otherwise that record gets the body's fields and is returned |
| `StoreRouter.Router.CreateAtStore` | src/store/router.ts:95-106 | unknown store: StoreNotFound; failed insert: the store's error; else 201 with the person created at the store path with the endpoint's role |
| `StoreRouter.Router.HandlePostManager` | src/store/router.ts:83-110 | a rule violation answers 400 before any lookup or change; otherwise a create with role Manager |
| `StoreRouter.Router.HandlePostEmployee` | src/store/router.ts:261-282 | a create with role Employee, whatever the rules said |
| `StoreRouter.Router.HandleGetManagers` | src/store/router.ts:112-137 | StoreNotFound for an unknown store; otherwise 200 with the managers the deep flag selects |
| `StoreRouter.Router.HandleGetEmployees` | src/store/router.ts:214-235 | 200 with the employees the deep flag selects, with no store check |
| `StoreRouter.Router.HandleGetOne` | src/store/router.ts:139-161 | 200 with the record matching id, path and role tier, else PersonNotFound (GET one employee, lines 237-259, is the same with the employee tier) |
| `StoreRouter.Router.HandleDelete` | src/store/router.ts:189-212 | 204 and the record removed when one matches id, path and role tier, else PersonNotFound and nothing changes (DELETE employee, lines 284-307, likewise) |
| `StoreRouter.Router.HandleUpdate` | src/store/router.ts:163-187 | 200 with the patched record when one matches id, path and role tier, else PersonNotFound and nothing changes (PUT employee, lines 309-333, likewise) |
| `StoreRouter.Router.Handle` | src/store/router.ts:22-81 | a refused chain answers 403 and changes nothing; a chain that passes runs that endpoint's handler, with the response and new collection the handler's contract gives; manager-gated endpoints never reach their handler for a non-manager; reads change nothing |

## Left out

- Token verification (`authenticationMiddleware`, the signing secret and its configuration): the decoded principal is an input.
- Express routing and HTTP framing. The response body of a 400 is reduced to a tag. Registration order of the error handler is not modelled: src/index.ts registers it before the routes.
- express-validator internals: `isEmail` is a parameter of the router, not interpreted.
- String lengths (the 100-character name limit, the 10000-character path limit) count every Dafny character. The validator library's length check counts a surrogate pair as one character, as here, but does not count the variation selectors U+FE0E and U+FE0F, which count here.
- The validation verdict of GET managers and GET employees is not modelled: their only rule gives `deep` a default and can never fail, so the 400 branch there is unreachable.
- Mongoose and MongoDB: casting, unknown body fields, and the cast error a malformed id raises. Generated ids: the id a create would receive is a parameter.
- Errors other than the two not-found errors carry only their name. Their message text is not modelled.
- The store registry is a fixed set of non-empty store paths. Creating, listing and deleting stores (src/store/repo.ts) is not part of this model.
- Regular-expression syntax beyond `.`: the model treats every other character as itself, which is faithful only for paths made of letters, digits, `-`, `/` and `.`.
- src/employee/handler.ts, src/employee/router.ts and the src/node files: generic CRUD not reachable from the store routes.
- Asynchrony and concurrency: each request is modelled as one atomic step.
- StoreRouter.ScopedRegistry: no implementation with these signatures exists in the code. Its contract (match on id, exact path and role; null or false otherwise) is inferred from how the handlers call it.
