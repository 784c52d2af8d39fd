# Vigil: a dead-man's switch contract, modelled in Dafny

Vigil is a smart contract that keeps secrets. An owner stores a secret under a name, along with a
revelation timestamp and a revelation set. The revelation set is either `Anyone` or an explicit
list of addresses. The owner can always read the secret, move its timestamp and delete it. If the
owner stops moving the timestamp and the block time passes it, members of the revelation set can
read the value as well.

The contract's confidential store has three maps, all keyed by the secret identifier
`(owner, name)`: the revelation timestamps, the revelation sets and the secret values. Here they
are the three `map` fields of class `Contract.Vigil`. The caller's address and the block timestamp
come from the execution context; here they are parameters.

- `types.dfy`, module `VigilTypes` (`vigil/types/src/lib.rs`) defines the `Request`,
  `RevelationSet`, `Response` and `Error` datatypes, along with `RevelationSet.Contains`, the
  conversion from the unit value to `Response.Empty`, and the error codes.
- `contract.dfy`, module `Contract` (`src/lib.rs`):
  - The methods `CreateSecret`, `ResetRevelationTimestamp` and `DeleteSecret` update the maps in
    place (`modifies this`). Each one states its result and the entire new state, and each
    preserves the invariant `Valid()`: the three maps always have the same keys.
  - The reads `SecretExists`, `SecretIsRevealableTo`, `SecretRevelationTimestamp`,
    `SecretRevelationSet` and `SecretValue` are functions of the state.
  - The method `Call` is the request dispatcher.
  - The lifecycle entry points are functions with constant results.
- `properties.dfy`, module `Properties`, holds the access-control lemmas. They cover what the
  owner sees, the time gate, `Anyone` and the empty set, and the two error kinds used for
  non-members.
- `scenarios.dfy`, module `Scenarios`, restates the repository's three tests (first-party,
  second-party and third-party requests) as client methods on a fresh contract. Each one states
  every answer it gets. `DeleteTwice` shows that deletion is idempotent.

Where the design description and the code disagree, the model follows the code:

- The design describes `Entities` as a set of identities. The code uses a list (`Vec<Address>`),
  and so does the model, as a `seq<Address>` scanned front to back.
- The design says every read path must decide existence from the timestamp record. In the code,
  the owner's value read and `GetRevelationSet` consult the value map and the set map
  respectively. `OwnerOmniscience` shows that the owner's three reads agree with existence only
  under the invariant `Valid()`.
- The two cross-owner reads use different error kinds for a caller who is not a member:
  `PermissionDenied` for the timestamp and `SecretDoesntExist` for the value. On the member path,
  a missing timestamp record gives `PermissionDenied` for the value. The model keeps both exactly
  as written (`NonMemberErrorKinds`, `MissingTimestampIsPermissionDenied`).

## Model

| member | source | states |
|---|---|---|
| VigilTypes.RevelationSet.Contains | vigil/types/src/lib.rs:64-69 | `Anyone` contains every address; `Entities(es)` contains exactly the addresses at some index of `es` |
| VigilTypes.ListContains | vigil/types/src/lib.rs:67 | the front-to-back scan of the list finds `e` iff `e` occurs at some index |
| VigilTypes.AnyoneContainsEveryone | vigil/types/src/lib.rs:66 | `Anyone.Contains(e)` for every address `e` |
| VigilTypes.EntitiesContainsIffListed | vigil/types/src/lib.rs:67 | `Entities(es).Contains(e)` iff `e in es` |
| VigilTypes.EmptyEntitiesContainsNobody | vigil/types/src/lib.rs:67 | the empty explicit set contains no address |
| VigilTypes.ResponseFromUnit | vigil/types/src/lib.rs:93-97 | converting the unit value always gives `Response.Empty` |
| VigilTypes.Error.Code | vigil/types/src/lib.rs:99-120 | every error code is below 5 |
| VigilTypes.ErrorOfCode | vigil/types/src/lib.rs:99-120 | a code names an error iff it is below 5 |
| VigilTypes.CodeRoundTrip | vigil/types/src/lib.rs:99-120 | each error is recovered from its code, so the five codes are distinct |
| VigilTypes.CodesAreDense | vigil/types/src/lib.rs:99-120 | every code 0 to 4 belongs to exactly one error, which reports it |
| VigilTypes.CodesInDeclarationOrder | vigil/types/src/lib.rs:100-119 | the codes increase in the order the error kinds are declared |
| Contract.Vigil.constructor | src/lib.rs:22-24 | a new contract stores no timestamp, set or value, and the invariant holds |
| Contract.Vigil.SecretExists | src/lib.rs:141-143 | existence is the timestamp record alone; under the invariant it agrees with the set and value maps |
| Contract.Vigil.SecretIsRevealableTo | src/lib.rs:145-154 | true iff a set record exists and it is `Anyone` or lists the entity; false when the set record is missing |
| Contract.Vigil.CreateSecret | src/lib.rs:35-51 | if the caller's timestamp record exists: `SecretAlreadyExists`, all three maps unchanged; else `Ok` and exactly the given timestamp, set and value stored at `(caller, name)`, nothing else changed; preserves the invariant |
| Contract.Vigil.SecretRevelationTimestamp | src/lib.rs:53-71 | succeeds iff the record exists and the caller is the owner or a member, with the stored timestamp; a non-member non-owner gets `PermissionDenied`; otherwise the error is `SecretDoesntExist` |
| Contract.Vigil.SecretRevelationSet | src/lib.rs:73-81 | looks only at `(caller, name)`: the stored set if present, else `SecretDoesntExist` |
| Contract.Vigil.ResetRevelationTimestamp | src/lib.rs:83-94 | `SecretDoesntExist` and nothing changed when no timestamp record exists; else only the timestamp at `(caller, name)` changes; set and value maps never change; preserves the invariant |
| Contract.Vigil.SecretValue | src/lib.rs:96-127 | succeeds iff the value exists and the caller is the owner, or a member whose secret's timestamp is stored and not later than `now`, with the stored value; a non-member gets `SecretDoesntExist`; a member before the deadline or without a timestamp record gets `PermissionDenied` |
| Contract.Vigil.DeleteSecret | src/lib.rs:129-139 | always `Ok`; removes the three records of `(caller, name)` when the timestamp exists, else changes nothing; under the invariant no record remains afterwards |
| Contract.Vigil.Call | src/lib.rs:169-195 | each request kind runs its own operation with the matching response (unit becomes `Empty`); reads change no map; `Instantiate` gets `BadRequest`; preserves the invariant |
| Contract.InstantiateContract | src/lib.rs:162-167 | succeeds iff the request is `Instantiate`, else `BadRequest` |
| Contract.Query | src/lib.rs:197-199 | always `BadRequest` |
| Contract.HandleReply | src/lib.rs:201-207 | always `BadRequest` |
| Contract.PreUpgrade | src/lib.rs:209-211 | always `UpgradeNotAllowed` |
| Contract.PostUpgrade | src/lib.rs:213-215 | always `UpgradeNotAllowed` |
| Properties.OwnerOmniscience | src/lib.rs:60-107 | under the invariant, each of the owner's three reads succeeds iff the secret exists, at any block time |
| Properties.OwnerReadsIgnoreTime | src/lib.rs:103-107 | the owner's value read is the same at every block time |
| Properties.NonMemberErrorKinds | src/lib.rs:65-110 | a caller who is neither owner nor member gets `PermissionDenied` for the timestamp but `SecretDoesntExist` for the value |
| Properties.TimeGate | src/lib.rs:118-126 | for a member non-owner and an existing secret, the value is returned iff its timestamp is not later than `now`, else `PermissionDenied` |
| Properties.RevealedStaysRevealed | src/lib.rs:121-123 | a value revealed at time `now` is still revealed, unchanged, at any later time |
| Properties.AnyoneIsTimeGated | src/lib.rs:108-123 | with `Anyone` every caller passes the membership check, reads the timestamp iff it exists, and is still refused the value before the deadline |
| Properties.EmptySetRevealsToNobody | src/lib.rs:416-461 | with an empty explicit set a non-owner gets `PermissionDenied` for the timestamp and `SecretDoesntExist` for the value |
| Properties.MissingTimestampIsPermissionDenied | src/lib.rs:118-120 | a member non-owner of a secret with no timestamp record gets `PermissionDenied` for the value and `SecretDoesntExist` for the timestamp |
| Scenarios.DeleteTwice | src/lib.rs:303-308 | two deletions both answer `Empty` and leave exactly the state of one: no record of `(caller, name)`, all other keys kept |
| Scenarios.FirstPartyRequests | src/lib.rs:232-330 | duplicate creation refused; owner reads set, timestamp and value; delete twice; value then absent; the other secret survives; the name can be recreated |
| Scenarios.SecondPartyRequests | src/lib.rs:332-404 | a beneficiary is refused the value before the deadline, reads the timestamp, and reads the value after the owner resets the deadline into the past |
| Scenarios.ThirdPartyRequests | src/lib.rs:406-474 | a stranger to an empty set gets `PermissionDenied` for the timestamp and `SecretDoesntExist` for the set and the value |

## Left out

- CBOR encoding and decoding of requests, responses and stored records: the wire format belongs to
  a library that is not part of this model.
- The contract SDK plumbing: the context object, `confidential_store()`, the `store!` macro,
  storage-key serialisation and `create_contract!`. The three storage maps are class fields, and
  the caller is a parameter.
- The block-info query to the environment. The block timestamp is the parameter `now`. The code
  panics when the environment answers that query with something other than block info. That is
  an environment fault, and the model has no such path because `now` is always a timestamp.
- The byte layout of addresses: `Address` is an abstract type with equality.
- The contents of a reply from another contract: `Reply` is an abstract type, since every reply
  is refused.
- The host's transaction and atomicity guarantees. The model runs one request at a time, and each
  method's writes happen together.
- Strings are sequences of characters. UTF-8 encoding of names does not matter here, because
  names are only compared for equality.
