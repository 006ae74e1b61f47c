/**
 * The errors the store handlers raise, their messages, and the error
 * handler that turns them into responses.
 */
module Errors {
  import opened Wrappers

  /**
   * An error passed to the error handler. The two not-found errors carry
   * the request's store path (and person id); any other error is known only
   * by its name.
   */
  datatype AppError =
    | PersonNotFoundError(storePath: string, personId: string)
    | StoreNotFoundError(storePath: string)
    | OtherError(name: string)

  /** What the error handler does: answer with a status and a text, or hand the error on unchanged. */
  datatype Handling = Reply(status: int, text: string) | Delegate(err: AppError)

  /** The message names the person id after "id=" and ends with the store path. */
  function PersonNotFoundMessage(storePath: string, personId: string): (m: string)
    ensures |m| == |personId| + |storePath| + 27
    ensures m[..3] == "id=" && m[3..3 + |personId|] == personId
    ensures m[3 + |personId|..|m| - |storePath|] == " not found at storePath="
    ensures m[|m| - |storePath|..] == storePath
  {
    "id=" + personId + " not found at storePath=" + storePath
  }

  /** The message is the store path between "storePath=" and " not found". */
  function StoreNotFoundMessage(storePath: string): (m: string)
    ensures |m| == |storePath| + 20
    ensures m[..10] == "storePath=" && m[10..|m| - 10] == storePath && m[|m| - 10..] == " not found"
  {
    "storePath=" + storePath + " not found"
  }

  /** The error's name; the two not-found errors keep the generic name "Error". */
  function ErrorName(err: AppError): (n: string)
    ensures err.PersonNotFoundError? || err.StoreNotFoundError? ==> n == "Error"
    ensures err.OtherError? ==> n == err.name
  {
    if err.OtherError? then err.name else "Error"
  }

  /** The message of a not-found error. */
  function NotFoundMessage(err: AppError): string
    requires err.PersonNotFoundError? || err.StoreNotFoundError?
  {
    if err.PersonNotFoundError? then PersonNotFoundMessage(err.storePath, err.personId)
    else StoreNotFoundMessage(err.storePath)
  }

  /**
   * An error named UnauthorizedError gets 401 "invalid token"; a not-found
   * error gets 404 with its message; anything else is handed on.
   */
  function HandleErrors(err: AppError): (h: Handling)
    ensures h.Reply? && h.status == 401 <==> ErrorName(err) == "UnauthorizedError"
    ensures h.Reply? && h.status == 401 ==> h.text == "invalid token"
    ensures h.Reply? && h.status == 404 <==> err.PersonNotFoundError? || err.StoreNotFoundError?
    ensures h.Reply? && h.status == 404 ==> h.text == NotFoundMessage(err)
    ensures h.Reply? ==> h.status in {401, 404}
    ensures h.Delegate? ==> h.err == err
  {
    if ErrorName(err) == "UnauthorizedError" then Reply(401, "invalid token")
    else if err.PersonNotFoundError? || err.StoreNotFoundError? then Reply(404, NotFoundMessage(err))
    else Delegate(err)
  }

  /** The store path a store-not-found message names. */
  function ParseStoreNotFound(m: string): (r: Option<string>)
    ensures r.Some? ==> StoreNotFoundMessage(r.value) == m
  {
    if |m| >= 20 && m[..10] == "storePath=" && m[|m| - 10..] == " not found" then
      assert m == m[..10] + m[10..|m| - 10] + m[|m| - 10..];
      Some(m[10..|m| - 10])
    else None
  }

  /** The index of the first space in `s`, or `|s|` when there is none. */
  function SpaceIndex(s: string): (k: nat)
    ensures k <= |s|
    ensures forall j :: 0 <= j < k ==> s[j] != ' '
    ensures k < |s| ==> s[k] == ' '
  {
    if s == [] || s[0] == ' ' then 0 else 1 + SpaceIndex(s[1..])
  }

  /** The store path and person id a person-not-found message names. */
  function ParsePersonNotFound(m: string): (r: Option<(string, string)>)
    ensures r.Some? ==> PersonNotFoundMessage(r.value.0, r.value.1) == m
  {
    if |m| >= 3 && m[..3] == "id=" then
      var rest := m[3..];
      var k := SpaceIndex(rest);
      var tail := rest[k..];
      if |tail| >= 24 && tail[..24] == " not found at storePath=" then
        assert m == m[..3] + rest[..k] + tail[..24] + tail[24..];
        Some((tail[24..], rest[..k]))
      else None
    else None
  }

  /** A store-not-found message gives back the store path it was made from. */
  lemma StoreNotFoundRoundTrip(storePath: string)
    ensures ParseStoreNotFound(StoreNotFoundMessage(storePath)) == Some(storePath)
  {
    var m := StoreNotFoundMessage(storePath);
    assert m[..10] == "storePath=";
    assert m[|m| - 10..] == " not found";
    assert m[10..|m| - 10] == storePath;
  }

  /** A person-not-found message gives back its store path and its id, for any id without a space. */
  lemma PersonNotFoundRoundTrip(storePath: string, personId: string)
    requires ' ' !in personId
    ensures ParsePersonNotFound(PersonNotFoundMessage(storePath, personId)) == Some((storePath, personId))
  {
    var m := PersonNotFoundMessage(storePath, personId);
    var rest := m[3..];
    assert m[..3] == "id=";
    assert rest == personId + " not found at storePath=" + storePath;
    assert rest[|personId|] == ' ';
    var k := SpaceIndex(rest);
    assert k == |personId|;
    assert rest[..k] == personId;
    assert rest[k..] == " not found at storePath=" + storePath;
  }

  /** The two not-found messages can never coincide: one begins "storePath=", the other "id=". */
  lemma NotFoundMessagesDiffer(storePath: string, otherPath: string, personId: string)
    ensures StoreNotFoundMessage(storePath) != PersonNotFoundMessage(otherPath, personId)
  {
    assert StoreNotFoundMessage(storePath)[0] == 's';
    assert PersonNotFoundMessage(otherPath, personId)[0] == 'i';
  }

  /** Both not-found errors answer 404; neither is ever taken for an authentication failure. */
  lemma NotFoundIs404(storePath: string, personId: string)
    ensures HandleErrors(PersonNotFoundError(storePath, personId)) == Reply(404, PersonNotFoundMessage(storePath, personId))
    ensures HandleErrors(StoreNotFoundError(storePath)) == Reply(404, StoreNotFoundMessage(storePath))
  {
  }
}
