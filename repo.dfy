/**
 * The person repository: query filters over the person collection, the
 * selection they make, and the repository object whose create, delete and
 * update change the collection in place.
 */
module EmployeeRepo {
  import opened Wrappers
  import opened EmployeeSchema
  import opened DeepMatch

  /** How a filter constrains `nodePath`: equality, or an unanchored pattern. */
  datatype PathCond = Exact(path: string) | Pattern(source: string)

  /** A query filter; an absent part places no constraint. */
  datatype Filter = Filter(id: Option<string>, nodePath: Option<PathCond>, role: Option<string>)

  predicate PathHolds(c: PathCond, nodePath: string)
  {
    match c
    case Exact(path) => nodePath == path
    case Pattern(source) => RegexTest(source, nodePath)
  }

  predicate Matches(f: Filter, p: Person)
  {
    && (f.id.None? || p.id == f.id.value)
    && (f.nodePath.None? || PathHolds(f.nodePath.value, p.nodePath))
    && (f.role.None? || p.role == f.role.value)
  }

  /** The records a find with filter `f` returns, in collection order. */
  function Select(people: seq<Person>, f: Filter): (r: seq<Person>)
    ensures forall p :: p in r <==> p in people && Matches(f, p)
    ensures |r| <= |people|
    ensures multiset(r) <= multiset(people)
  {
    if people == [] then []
    else
      assert forall p :: p in people <==> p == people[0] || p in people[1..];
      assert people == [people[0]] + people[1..];
      (if Matches(f, people[0]) then [people[0]] else []) + Select(people[1..], f)
  }

  /** The index of the first record at or after `from` that the filter matches. */
  function FindFrom(people: seq<Person>, f: Filter, from: nat): (r: Option<nat>)
    requires from <= |people|
    decreases |people| - from
    ensures r.Some? ==> from <= r.value < |people| && Matches(f, people[r.value])
    ensures r.Some? ==> forall j :: from <= j < r.value ==> !Matches(f, people[j])
    ensures r.None? ==> forall j :: from <= j < |people| ==> !Matches(f, people[j])
  {
    if from == |people| then None
    else if Matches(f, people[from]) then Some(from)
    else FindFrom(people, f, from + 1)
  }

  /** The index of the first record the filter matches: what a find-one or a delete-one acts on. */
  function FindFirst(people: seq<Person>, f: Filter): Option<nat>
  {
    FindFrom(people, f, 0)
  }

  function RemoveAt(people: seq<Person>, i: nat): seq<Person>
    requires i < |people|
  {
    people[..i] + people[i + 1..]
  }

  function Ids(people: seq<Person>): set<string>
  {
    set p | p in people :: p.id
  }

  /** No two records of the collection share an id. */
  ghost predicate UniqueIds(people: seq<Person>)
  {
    forall i, j :: 0 <= i < j < |people| ==> people[i].id != people[j].id
  }

  /** An update writes the fields that are given and keeps the others; the id is never among them. */
  function Patched(p: Person, f: Fields): (r: Person)
    ensures r.id == p.id
    ensures f == Fields(None, None, None, None) ==> r == p
    ensures f.name.Some? ==> r.name == f.name.value
    ensures f.email.Some? ==> r.email == f.email.value
    ensures f.nodePath.Some? ==> r.nodePath == f.nodePath.value
    ensures f.role.Some? ==> r.role == f.role.value
    ensures f.name.None? ==> r.name == p.name
    ensures f.email.None? ==> r.email == p.email
    ensures f.nodePath.None? ==> r.nodePath == p.nodePath
    ensures f.role.None? ==> r.role == p.role
  {
    Person(p.id,
           if f.name.Some? then f.name.value else p.name,
           if f.email.Some? then f.email.value else p.email,
           if f.nodePath.Some? then f.nodePath.value else p.nodePath,
           if f.role.Some? then f.role.value else p.role)
  }

  /** The path condition of a query: equality when shallow, the path as a pattern when deep. */
  function PathFilter(path: string, deep: bool): (c: PathCond)
    ensures PathHolds(c, path)
    ensures !deep ==> forall s :: PathHolds(c, s) <==> s == path
    ensures deep ==> forall s :: PathHolds(c, s) <==> RegexTest(path, s)
  {
    SelfMatches(path);
    if deep then Pattern(path) else Exact(path)
  }

  /** The filter of `at`: the path condition, plus the role when one is given. */
  function AtFilter(path: string, deep: bool, role: Option<Role>): (f: Filter)
    ensures forall p :: Matches(f, p) <==>
      PathHolds(PathFilter(path, deep), p.nodePath) && (role.None? || p.role == Tag(role.value))
  {
    Filter(None, Some(PathFilter(path, deep)), if role.Some? then Some(Tag(role.value)) else None)
  }

  /** The filter of `managers`: the filter of `at` with the manager role. */
  function ManagersFilter(path: string, deep: bool): (f: Filter)
    ensures f == AtFilter(path, deep, Some(Manager))
  {
    Filter(None, Some(PathFilter(path, deep)), Some(Tag(Manager)))
  }

  /** The filter of `employees`: the filter of `at` with the employee role. */
  function EmployeesFilter(path: string, deep: bool): (f: Filter)
    ensures f == AtFilter(path, deep, Some(Employee))
  {
    Filter(None, Some(PathFilter(path, deep)), Some(Tag(Employee)))
  }

  function IdFilter(id: string): Filter
  {
    Filter(Some(id), None, None)
  }

  /** Writing the same fields twice is the same as writing them once. */
  lemma PatchIdempotent(p: Person, f: Fields)
    ensures Patched(Patched(p, f), f) == Patched(p, f)
  {
  }

  /** Why a create fails: schema violations, or an id the collection already holds. */
  datatype CreateError = Invalid(paths: seq<string>) | DuplicateKey(id: string)

  /** A shallow query returns exactly the records at the given path, of the given role if any. */
  lemma ShallowIsExact(people: seq<Person>, path: string, role: Option<Role>)
    ensures forall p :: p in Select(people, AtFilter(path, false, role)) <==>
      p in people && p.nodePath == path && (role.None? || p.role == Tag(role.value))
  {
  }

  /** A deep query returns exactly the records whose path matches the query path as an unanchored pattern. */
  lemma DeepIsPattern(people: seq<Person>, path: string, role: Option<Role>)
    ensures forall p :: p in Select(people, AtFilter(path, true, role)) <==>
      p in people && RegexTest(path, p.nodePath) && (role.None? || p.role == Tag(role.value))
  {
  }

  /** For the same path and role, the shallow result is contained in the deep result. */
  lemma ShallowWithinDeep(people: seq<Person>, path: string, role: Option<Role>)
    ensures forall p :: p in Select(people, AtFilter(path, false, role)) ==> p in Select(people, AtFilter(path, true, role))
  {
    SelfMatches(path);
  }

  /** A deep query also returns records whose path merely contains the query path, not only those below it. */
  lemma DeepIsUnanchored(people: seq<Person>, path: string, before: string, after: string, p: Person)
    requires p in people && p.nodePath == before + path + after
    ensures p in Select(people, AtFilter(path, true, None))
  {
    InfixMatches(before, path, after);
  }

  /** Every record whose path begins with the query path is in the deep result. */
  lemma DeepCoversDescendants(people: seq<Person>, path: string, p: Person)
    requires p in people && path <= p.nodePath
    ensures p in Select(people, AtFilter(path, true, None))
  {
    PrefixMatches(path, p.nodePath);
  }

  /** The managers query returns only managers and the employees query only employees, at any depth. */
  lemma RoleQueriesAreRoleOnly(people: seq<Person>, path: string, deep: bool)
    ensures forall p :: p in Select(people, ManagersFilter(path, deep)) ==> p.role == "manager"
    ensures forall p :: p in Select(people, EmployeesFilter(path, deep)) ==> p.role == "employee"
  {
  }

  /** With unique ids, the first record with id `id` is the only one. */
  lemma {:induction false} RemoveById(people: seq<Person>, id: string, i: nat)
    requires UniqueIds(people)
    requires FindFirst(people, IdFilter(id)) == Some(i)
    ensures forall p :: p in RemoveAt(people, i) <==> p in people && p.id != id
    ensures UniqueIds(RemoveAt(people, i))
  {
    var r := RemoveAt(people, i);
    assert |r| == |people| - 1;
    assert forall k :: 0 <= k < i ==> r[k] == people[k];
    assert forall k :: i <= k < |r| ==> r[k] == people[k + 1];
    forall p | p in people && p.id != id
      ensures p in r
    {
      var k :| 0 <= k < |people| && people[k] == p;
      if k < i { assert r[k] == p; } else { assert k != i; assert r[k - 1] == p; }
    }
  }

  /**
   * The person repository over the collection. The collection is the
   * sequence `people`, in natural order; its ids are unique.
   */
  class MongoRepo {
    var people: seq<Person>

    ghost predicate Valid()
      reads this
    {
      UniqueIds(people)
    }

    constructor ()
      ensures Valid() && people == []
    {
      people := [];
    }

    /** Every record of the collection. */
    method Get() returns (r: seq<Person>)
      ensures r == people
    {
      r := people;
    }

    /** The records at `path` (exactly, or as an unanchored pattern when deep), restricted to `role` when one is given. */
    method At(path: string, deep: bool, role: Option<Role>) returns (r: seq<Person>)
      ensures r == Select(people, AtFilter(path, deep, role))
      ensures forall p :: p in r <==>
        p in people && PathHolds(PathFilter(path, deep), p.nodePath) && (role.None? || p.role == Tag(role.value))
    {
      r := Select(people, AtFilter(path, deep, role));
    }

    /** The managers at `path`, shallow or deep. */
    method Managers(path: string, deep: bool) returns (r: seq<Person>)
      ensures r == Select(people, ManagersFilter(path, deep))
      ensures forall p :: p in r <==> p in people && PathHolds(PathFilter(path, deep), p.nodePath) && p.role == "manager"
    {
      r := Select(people, ManagersFilter(path, deep));
    }

    /** The employees at `path`, shallow or deep. */
    method Employees(path: string, deep: bool) returns (r: seq<Person>)
      ensures r == Select(people, EmployeesFilter(path, deep))
      ensures forall p :: p in r <==> p in people && PathHolds(PathFilter(path, deep), p.nodePath) && p.role == "employee"
    {
      r := Select(people, EmployeesFilter(path, deep));
    }

    /**
     * Inserts a new document under the id `newId`. The schema is checked
     * first; an id already in the collection is then refused.
     */
    method Create(fields: Fields, newId: string) returns (r: Result<Person, CreateError>)
      requires Valid()
      modifies this
      ensures Valid()
      ensures Violations(fields) != [] ==> r == Err(Invalid(Violations(fields))) && people == old(people)
      ensures Violations(fields) == [] && newId in Ids(old(people)) ==> r == Err(DuplicateKey(newId)) && people == old(people)
      ensures Violations(fields) == [] && newId !in Ids(old(people)) ==>
        && r.Ok? && Conforms(r.value) && r.value.id == newId
        && fields == Fields(Some(r.value.name), Some(r.value.email), Some(r.value.nodePath), Some(r.value.role))
        && people == old(people) + [r.value]
    {
      var checked := Validate(fields, newId);
      if checked.Err? {
        return Err(Invalid(checked.error));
      }
      if newId in Ids(people) {
        return Err(DuplicateKey(newId));
      }
      assert forall k :: 0 <= k < |people| ==> people[k].id in Ids(people);
      people := people + [checked.value];
      r := Ok(checked.value);
    }

    /** Deletes the record with id `id`, if there is one; every other record stays as it was. */
    method Delete(id: string)
      requires Valid()
      modifies this
      ensures Valid()
      ensures forall p :: p in people <==> p in old(people) && p.id != id
      ensures people == match FindFirst(old(people), IdFilter(id))
                        case None => old(people)
                        case Some(i) => RemoveAt(old(people), i)
    {
      var hit := FindFirst(people, IdFilter(id));
      if hit.Some? {
        RemoveById(people, id, hit.value);
        people := RemoveAt(people, hit.value);
      }
    }

    /**
     * Writes the given fields into the record with id `id` and returns the
     * record as it now is, or nothing when no record has that id. The schema
     * is not checked.
     */
    method Update(id: string, fields: Fields) returns (r: Option<Person>)
      requires Valid()
      modifies this
      ensures Valid()
      ensures r.None? <==> id !in Ids(old(people))
      ensures r.None? ==> people == old(people)
      ensures match FindFirst(old(people), IdFilter(id))
              case None => r.None?
              case Some(i) => r == Some(Patched(old(people)[i], fields)) && people == old(people)[i := r.value]
    {
      var hit := FindFirst(people, IdFilter(id));
      if hit.None? {
        assert forall p :: p in people ==> p.id != id;
        return None;
      }
      var updated := Patched(people[hit.value], fields);
      assert people[hit.value] in people;
      people := people[hit.value := updated];
      r := Some(updated);
    }
  }
}
