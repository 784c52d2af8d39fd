/**
 * The data types shared by the Vigil contract and its clients: the requests
 * it accepts, the revelation set that says who may read a secret once it is
 * due, the responses it returns and the error kinds it reports.
 */
module VigilTypes {

  /** An account address. Only equality between addresses matters here. */
  type Address(==)

  /** An unsigned 64-bit integer, the width of timestamps. */
  newtype u64 = x: int | 0 <= x < 0x1_0000_0000_0000_0000

  /** An unsigned byte; secret values are byte strings. */
  newtype u8 = x: int | 0 <= x < 0x100

  type Bytes = seq<u8>

  /** The callers that may read a revealed secret. */
  datatype RevelationSet = Anyone | Entities(entities: seq<Address>) {

    /** Whether `entity` belongs to this set. */
    function Contains(entity: Address): (r: bool)
      ensures Anyone? ==> r
      ensures Entities? ==> (r <==> exists i :: 0 <= i < |entities| && entities[i] == entity)
    {
      match this
      case Anyone => true
      case Entities(es) => ListContains(es, entity)
    }
  }

  /** A front-to-back scan of `es` for `e`, as a vector's `contains` does. */
  function ListContains(es: seq<Address>, e: Address): (r: bool)
    ensures r <==> exists i :: 0 <= i < |es| && es[i] == e
  {
    if es == [] then false
    else if es[0] == e then true
    else
      var found := ListContains(es[1..], e);
      assert forall i :: 1 <= i < |es| ==> es[i] == es[1..][i - 1];
      assert found ==> (exists i :: 1 <= i < |es| && es[i] == e);
      found
  }

  /** A request to the contract. */
  datatype Request =
    | Instantiate
    | CreateSecret(name: string, value: Bytes, revelationSet: RevelationSet, revelationTimestamp: u64)
    | ResetRevelationTimestamp(name: string, revelationTimestamp: u64)
    | DeleteSecret(name: string)
    | GetRevelationTimestamp(owner: Address, name: string)
    | GetRevelationSet(name: string)
    | GetSecretValue(owner: Address, name: string)

  /** A successful answer of the contract. */
  datatype Response =
    | RevelationTimestamp(timestamp: u64)
    | RevelationSet(revelationSet: RevelationSet)
    | SecretValue(value: Bytes)
    | Empty

  /** The answer to an operation that returns nothing is `Empty`. */
  function ResponseFromUnit(u: ()): (r: Response)
    ensures r.Empty?
  {
    Empty
  }

  /** The error kinds, in the order of their codes. */
  datatype Error =
    | UpgradeNotAllowed
    | BadRequest
    | PermissionDenied
    | SecretDoesntExist
    | SecretAlreadyExists
  {
    /** The numeric code the contract reports for this error. */
    function Code(): (c: nat)
      ensures c < 5
    {
      match this
      case UpgradeNotAllowed => 0
      case BadRequest => 1
      case PermissionDenied => 2
      case SecretDoesntExist => 3
      case SecretAlreadyExists => 4
    }
  }

  /** The error whose code is `c`, if any; the inverse of `Code`. */
  function ErrorOfCode(c: nat): (e: Option<Error>)
    ensures e.Some? <==> c < 5
  {
    if c == 0 then Some(UpgradeNotAllowed)
    else if c == 1 then Some(BadRequest)
    else if c == 2 then Some(PermissionDenied)
    else if c == 3 then Some(SecretDoesntExist)
    else if c == 4 then Some(SecretAlreadyExists)
    else None
  }

  /** Every error is recovered from its code, so no two errors share one. */
  lemma CodeRoundTrip(e: Error)
    ensures ErrorOfCode(e.Code()) == Some(e)
  {
  }

  /** Every code below 5 names exactly one error, and that error reports it. */
  lemma CodesAreDense(c: nat)
    requires c < 5
    ensures ErrorOfCode(c).Some? && ErrorOfCode(c).value.Code() == c
  {
  }

  /** Codes follow the order in which the error kinds are declared. */
  lemma CodesInDeclarationOrder()
    ensures UpgradeNotAllowed.Code() < BadRequest.Code() < PermissionDenied.Code()
            < SecretDoesntExist.Code() < SecretAlreadyExists.Code()
  {
  }

  datatype Option<T> = None | Some(value: T)

  /** The outcome of an operation: a value or one of the error kinds. */
  datatype Result<T> = Ok(value: T) | Err(error: Error)

  /** `Anyone` contains every address. */
  lemma AnyoneContainsEveryone(e: Address)
    ensures Anyone.Contains(e)
  {
  }

  /** An explicit set contains exactly the addresses listed in it. */
  lemma EntitiesContainsIffListed(es: seq<Address>, e: Address)
    ensures Entities(es).Contains(e) <==> e in es
  {
  }

  /** The empty explicit set grants nobody access. */
  lemma EmptyEntitiesContainsNobody(e: Address)
    ensures !Entities([]).Contains(e)
  {
  }
}
