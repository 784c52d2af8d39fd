/**
 * Sequences of requests against one contract: the lifecycle of a secret
 * (create, refuse a duplicate, delete twice, recreate), the deadline story
 * of a dead-man's switch, and what a stranger is told. Addresses are
 * parameters; the block time is fixed at `BlockTimestamp`.
 */
module Scenarios {
  import opened VigilTypes
  import opened Contract

  /** The block time at which every request below is served. */
  const BlockTimestamp: u64 := 100_000

  /** Deleting twice answers `Empty` both times and removes the secret. */
  method DeleteTwice(v: Vigil, caller: Address, name: string, now: u64)
    returns (first: Result<Response>, second: Result<Response>)
    requires v.Valid()
    modifies v
    ensures first == Ok(Empty) && second == Ok(Empty)
    ensures v.Valid() && !v.SecretExists((caller, name))
    ensures v.tstamps == old(v.tstamps) - {(caller, name)}
    ensures v.sets == old(v.sets) - {(caller, name)}
    ensures v.values == old(v.values) - {(caller, name)}
  {
    first := v.Call(caller, now, DeleteSecret(name));
    second := v.Call(caller, now, DeleteSecret(name));
  }

  /**
   * The owner's requests: a duplicate creation is refused, the owner reads
   * the set, the timestamp and the value before the deadline, deletion is
   * idempotent and leaves the other secret alone, and the deleted name can
   * be used again.
   */
  method FirstPartyRequests(owner: Address, member1: Address, member2: Address, value: Bytes)
    returns (rs: seq<Result<Response>>)
    ensures rs == [
      Ok(Empty),                                                   // create
      Err(SecretAlreadyExists),                                    // create again
      Ok(Empty),                                                   // create the other secret
      Ok(Response.RevelationSet(Entities([member1, member2]))),    // its set
      Ok(Response.RevelationTimestamp(BlockTimestamp + 1)),        // its timestamp
      Ok(Response.SecretValue(value)),                             // its value
      Ok(Empty),                                                   // delete
      Ok(Empty),                                                   // delete again
      Err(SecretDoesntExist),                                      // value after deletion
      Ok(Response.RevelationSet(Anyone)),                          // the other secret remains
      Ok(Empty)                                                    // recreate
    ]
  {
    var v := new Vigil();
    var name, other := "test secret", "other test secret";
    var members := Entities([member1, member2]);
    var create := CreateSecret(name, value, members, BlockTimestamp + 1);
    var r0 := v.Call(owner, BlockTimestamp, create);
    var r1 := v.Call(owner, BlockTimestamp, create);
    var r2 := v.Call(owner, BlockTimestamp, CreateSecret(other, value, Anyone, BlockTimestamp + 1));
    var r3 := v.Call(owner, BlockTimestamp, GetRevelationSet(name));
    var r4 := v.Call(owner, BlockTimestamp, GetRevelationTimestamp(owner, name));
    var r5 := v.Call(owner, BlockTimestamp, GetSecretValue(owner, name));
    var r6 := v.Call(owner, BlockTimestamp, DeleteSecret(name));
    var r7 := v.Call(owner, BlockTimestamp, DeleteSecret(name));
    var r8 := v.Call(owner, BlockTimestamp, GetSecretValue(owner, name));
    var r9 := v.Call(owner, BlockTimestamp, GetRevelationSet(other));
    var r10 := v.Call(owner, BlockTimestamp, create);
    rs := [r0, r1, r2, r3, r4, r5, r6, r7, r8, r9, r10];
  }

  /**
   * A beneficiary is refused the value before the deadline but may read the
   * timestamp; once the owner moves the deadline into the past, the
   * beneficiary reads the value.
   */
  method SecondPartyRequests(owner: Address, beneficiary: Address, value: Bytes)
    returns (rs: seq<Result<Response>>)
    requires owner != beneficiary
    ensures rs == [
      Ok(Empty),                                               // owner creates
      Err(PermissionDenied),                                   // value, not yet due
      Ok(Response.RevelationTimestamp(BlockTimestamp + 1)),    // timestamp
      Ok(Empty),                                               // owner resets to the past
      Ok(Response.SecretValue(value))                          // value, now due
    ]
  {
    var v := new Vigil();
    var name := "test secret";
    var r0 := v.Call(owner, BlockTimestamp,
                     CreateSecret(name, value, Entities([beneficiary]), BlockTimestamp + 1));
    var r1 := v.Call(beneficiary, BlockTimestamp, GetSecretValue(owner, name));
    var r2 := v.Call(beneficiary, BlockTimestamp, GetRevelationTimestamp(owner, name));
    var r3 := v.Call(owner, BlockTimestamp, ResetRevelationTimestamp(name, BlockTimestamp - 1));
    var r4 := v.Call(beneficiary, BlockTimestamp, GetSecretValue(owner, name));
    rs := [r0, r1, r2, r3, r4];
  }

  /**
   * A stranger learns nothing about a revealed secret whose revelation set
   * is empty: the timestamp is refused, the stranger has no set of that
   * name, and the value reads as absent.
   */
  method ThirdPartyRequests(owner: Address, stranger: Address, value: Bytes)
    returns (rs: seq<Result<Response>>)
    requires owner != stranger
    ensures rs == [
      Ok(Empty),                    // owner creates, already due
      Err(PermissionDenied),        // timestamp
      Err(SecretDoesntExist),       // the stranger's own set of that name
      Err(SecretDoesntExist),       // value
      Err(SecretDoesntExist)        // the stranger's own secret of that name
    ]
  {
    var v := new Vigil();
    var name := "test secret";
    var r0 := v.Call(owner, BlockTimestamp,
                     CreateSecret(name, value, Entities([]), BlockTimestamp - 1));
    var r1 := v.Call(stranger, BlockTimestamp, GetRevelationTimestamp(owner, name));
    var r2 := v.Call(stranger, BlockTimestamp, GetRevelationSet(name));
    var r3 := v.Call(stranger, BlockTimestamp, GetSecretValue(owner, name));
    var r4 := v.Call(stranger, BlockTimestamp, GetSecretValue(stranger, name));
    rs := [r0, r1, r2, r3, r4];
  }
}
