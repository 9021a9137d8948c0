/**
 * The resource owner (the signed-in user's profile) returned by the provider:
 * the decoded user-info response and the name of the field that identifies
 * the user. It never changes after it is built.
 */
module UniasResourceOwner {
  import opened Wrappers
  import opened Php

  /** The stored response map and the identifier field name. */
  datatype ResourceOwner = ResourceOwner(response: map<string, Json>, idField: string)

  /** Reading a key that the response does not hold. */
  datatype ReadError = UndefinedKey(key: string)

  /**
   * `read($key = null)`: with no key, the whole response (as a PHP array);
   * with a key, the value stored under it, and no default for an absent key.
   */
  function Read(owner: ResourceOwner, key: Option<string>): (r: Result<Json, ReadError>)
    ensures key.None? ==> r == Success(Array(owner.response))
    ensures key.Some? ==> (r.Success? <==> key.value in owner.response)
    ensures key.Some? && r.Success? ==> r.value == owner.response[key.value]
    ensures key.Some? && r.Failure? ==> r.error == UndefinedKey(key.value)
  {
    match key
    case None => Success(Array(owner.response))
    case Some(k) => if k in owner.response then Success(owner.response[k]) else Failure(UndefinedKey(k))
  }

  /** The two modes agree: the whole map, indexed at a key, is the value read at that key. */
  lemma ReadModesAgree(owner: ResourceOwner, k: string)
    requires k in owner.response
    ensures Read(owner, None).Success? && Read(owner, None).value.Array?
    ensures Read(owner, Some(k)).Success?
    ensures Read(owner, None).value.entries[k] == Read(owner, Some(k)).value
  {
  }

  /** The whole-map read holds exactly the keys that a single-key read accepts. */
  lemma ReadKeys(owner: ResourceOwner, k: string)
    ensures Read(owner, Some(k)).Success? <==> k in Read(owner, None).value.entries
  {
  }
}
