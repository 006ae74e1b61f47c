/**
 * The person record kept for every employee, manager and superuser, the role
 * enumeration with its string tags, and the constraints the person schema
 * places on a document before it is stored.
 */
module EmployeeSchema {
  import opened Wrappers

  /** The three roles a person can hold. */
  datatype Role = Employee | Manager | SuperUser

  /** The string under which a role is stored and compared. */
  function Tag(r: Role): (t: string)
    ensures t == "employee" <==> r.Employee?
    ensures t == "manager" <==> r.Manager?
    ensures t == "superuser" <==> r.SuperUser?
  {
    match r
    case Employee => "employee"
    case Manager => "manager"
    case SuperUser => "superuser"
  }

  /** The role a stored string denotes, if it is one of the three tags. */
  function ParseRole(s: string): (r: Option<Role>)
    ensures r.Some? ==> Tag(r.value) == s
    ensures r.None? ==> forall role: Role :: Tag(role) != s
  {
    if s == "employee" then Some(Employee)
    else if s == "manager" then Some(Manager)
    else if s == "superuser" then Some(SuperUser)
    else None
  }

  /** Every tag reads back as the role it came from. */
  lemma TagRoundTrip(r: Role)
    ensures ParseRole(Tag(r)) == Some(r)
  {
  }

  /** The three tags are pairwise distinct. */
  lemma TagInjective(a: Role, b: Role)
    ensures Tag(a) == Tag(b) ==> a == b
  {
  }

  /**
   * A person document as the collection holds it. The role is kept as the
   * stored string: updates do not run the schema validators, so a stored role
   * need not be one of the tags.
   */
  datatype Person = Person(id: string, name: string, email: string, nodePath: string, role: string)

  /** Person fields, each of which may be absent: the input of a create or an update. */
  datatype Fields = Fields(name: Option<string>, email: Option<string>, nodePath: Option<string>, role: Option<string>)

  /** A required string path is satisfied only by a present, non-empty string. */
  predicate Present(v: Option<string>)
  {
    v.Some? && v.value != ""
  }

  /** The role path is satisfied only by one of the three tags. */
  predicate IsRoleTag(v: Option<string>)
  {
    v.Some? && ParseRole(v.value).Some?
  }

  /** A person that meets every constraint of the schema. */
  predicate Conforms(p: Person)
  {
    p.name != "" && p.email != "" && p.nodePath != "" && ParseRole(p.role).Some?
  }

  /** The schema paths a document violates, in the order the schema declares them. */
  function Violations(f: Fields): (paths: seq<string>)
    ensures "name" in paths <==> !Present(f.name)
    ensures "email" in paths <==> !Present(f.email)
    ensures "nodePath" in paths <==> !Present(f.nodePath)
    ensures "role" in paths <==> !IsRoleTag(f.role)
    ensures forall q :: q in paths ==> q in ["name", "email", "nodePath", "role"]
  {
    (if Present(f.name) then [] else ["name"])
    + (if Present(f.email) then [] else ["email"])
    + (if Present(f.nodePath) then [] else ["nodePath"])
    + (if IsRoleTag(f.role) then [] else ["role"])
  }

  /**
   * Schema validation of a new document that is to receive the id `id`: it
   * yields the person when no path is violated, and the violated paths otherwise.
   */
  function Validate(f: Fields, id: string): (r: Result<Person, seq<string>>)
    ensures r.Ok? <==> Violations(f) == []
    ensures r.Err? ==> r.error == Violations(f)
    ensures r.Ok? ==> Conforms(r.value) && r.value.id == id
    ensures r.Ok? ==> f == Fields(Some(r.value.name), Some(r.value.email), Some(r.value.nodePath), Some(r.value.role))
  {
    var v := Violations(f);
    if v == [] then
      assert "name" !in v && "email" !in v && "nodePath" !in v && "role" !in v;
      Ok(Person(id, f.name.value, f.email.value, f.nodePath.value, f.role.value))
    else
      Err(v)
  }

  /** Any string other than the three tags is rejected as a role. */
  lemma OnlyTagsAreRoles(f: Fields, id: string)
    requires f.role.Some? && f.role.value !in ["employee", "manager", "superuser"]
    ensures Validate(f, id).Err? && "role" in Validate(f, id).error
  {
  }

  /** A document lacking any one of the four required paths is rejected. */
  lemma AllPathsRequired(f: Fields, id: string)
    requires f.name.None? || f.email.None? || f.nodePath.None? || f.role.None?
    ensures Validate(f, id).Err?
  {
  }
}
