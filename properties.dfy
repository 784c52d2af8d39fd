/**
 * Access-control facts about the read operations of the Vigil contract:
 * what the owner sees, what a revelation-set member sees before and after
 * the revelation timestamp, and what everybody else is told.
 */
module Properties {
  import opened VigilTypes
  import opened Contract

  /**
   * The owner sees everything: each of the three reads succeeds exactly
   * when the secret exists, whatever the block time.
   */
  lemma OwnerOmniscience(v: Vigil, owner: Address, name: string, now: u64)
    requires v.Valid()
    ensures v.SecretRevelationTimestamp(owner, owner, name).Ok? <==> v.SecretExists((owner, name))
    ensures v.SecretRevelationSet(owner, name).Ok? <==> v.SecretExists((owner, name))
    ensures v.SecretValue(owner, owner, name, now).Ok? <==> v.SecretExists((owner, name))
  {
  }

  /** The owner's reads do not depend on the block time. */
  lemma OwnerReadsIgnoreTime(v: Vigil, owner: Address, name: string, now: u64, later: u64)
    ensures v.SecretValue(owner, owner, name, now) == v.SecretValue(owner, owner, name, later)
  {
  }

  /**
   * A caller who is neither the owner nor in the stored revelation set
   * learns neither the timestamp nor the value, and the two reads refuse
   * with different error kinds.
   */
  lemma NonMemberErrorKinds(v: Vigil, caller: Address, owner: Address, name: string, now: u64)
    requires caller != owner
    requires !v.SecretIsRevealableTo((owner, name), caller)
    ensures v.SecretRevelationTimestamp(caller, owner, name) == Err(PermissionDenied)
    ensures v.SecretValue(caller, owner, name, now) == Err(SecretDoesntExist)
  {
  }

  /**
   * The time gate: a member who is not the owner reads an existing secret
   * exactly when its revelation timestamp is not later than the block time,
   * and is otherwise refused with `PermissionDenied`.
   */
  lemma TimeGate(v: Vigil, caller: Address, owner: Address, name: string, now: u64)
    requires v.Valid()
    requires caller != owner
    requires v.SecretIsRevealableTo((owner, name), caller)
    requires v.SecretExists((owner, name))
    ensures v.tstamps[(owner, name)] <= now ==>
              v.SecretValue(caller, owner, name, now) == Ok(v.values[(owner, name)])
    ensures v.tstamps[(owner, name)] > now ==>
              v.SecretValue(caller, owner, name, now) == Err(PermissionDenied)
  {
  }

  /** Once a secret is revealed to a caller it stays revealed as time goes on. */
  lemma RevealedStaysRevealed(v: Vigil, caller: Address, owner: Address, name: string,
                              now: u64, later: u64)
    requires now <= later
    requires v.SecretValue(caller, owner, name, now).Ok?
    ensures v.SecretValue(caller, owner, name, later) == v.SecretValue(caller, owner, name, now)
  {
  }

  /**
   * `Anyone` admits every caller to the membership check, but the time gate
   * still applies to the value.
   */
  lemma AnyoneIsTimeGated(v: Vigil, caller: Address, owner: Address, name: string, now: u64)
    requires caller != owner
    requires (owner, name) in v.sets && v.sets[(owner, name)] == Anyone
    ensures v.SecretIsRevealableTo((owner, name), caller)
    ensures v.SecretRevelationTimestamp(caller, owner, name).Ok? <==> (owner, name) in v.tstamps
    ensures (owner, name) in v.tstamps && v.tstamps[(owner, name)] > now ==>
              v.SecretValue(caller, owner, name, now) == Err(PermissionDenied)
  {
  }

  /**
   * With an empty explicit revelation set only the owner can read the
   * secret, even after its revelation timestamp.
   */
  lemma EmptySetRevealsToNobody(v: Vigil, caller: Address, owner: Address, name: string, now: u64)
    requires caller != owner
    requires (owner, name) in v.sets && v.sets[(owner, name)] == Entities([])
    ensures v.SecretRevelationTimestamp(caller, owner, name) == Err(PermissionDenied)
    ensures v.SecretValue(caller, owner, name, now) == Err(SecretDoesntExist)
  {
    EmptyEntitiesContainsNobody(caller);
  }

  /**
   * A member who is not the owner and finds no timestamp record is refused
   * with `PermissionDenied`, although the secret does not exist.
   */
  lemma MissingTimestampIsPermissionDenied(v: Vigil, caller: Address, owner: Address,
                                           name: string, now: u64)
    requires caller != owner
    requires v.SecretIsRevealableTo((owner, name), caller)
    requires !v.SecretExists((owner, name))
    ensures v.SecretValue(caller, owner, name, now) == Err(PermissionDenied)
    ensures v.SecretRevelationTimestamp(caller, owner, name) == Err(SecretDoesntExist)
  {
  }
}
