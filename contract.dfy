/**
 * The Vigil contract: a dead-man's switch. An owner stores a secret value
 * under a name together with a revelation timestamp and a revelation set;
 * the owner may read and refresh it at any time, and once the timestamp has
 * passed the members of the set may read the value too.
 *
 * The contract's confidential store holds three maps, all keyed by the
 * secret's identifier (owner, name): the revelation timestamps, the
 * revelation sets and the secret values. They are the three fields of
 * class `Vigil`. The caller's address and the block timestamp, which the
 * execution context supplies, are parameters.
 */
module Contract {
  import opened VigilTypes

  /** A secret is identified by its owner and its name. */
  type SecretId = (Address, string)

  /** A reply from another contract; this contract never expects one. */
  type Reply(==)

  class Vigil {
    /** The revelation timestamp of each secret. */
    var tstamps: map<SecretId, u64>
    /** The revelation set of each secret. */
    var sets: map<SecretId, RevelationSet>
    /** The value of each secret. */
    var values: map<SecretId, Bytes>

    /** A freshly deployed contract stores no secret. */
    constructor ()
      ensures tstamps == map[] && sets == map[] && values == map[]
      ensures Valid()
    {
      tstamps, sets, values := map[], map[], map[];
    }

    /**
     * The three maps agree on their keys: a secret has a timestamp, a set
     * and a value, or none of them.
     */
    ghost predicate Valid()
      reads this
    {
      tstamps.Keys == sets.Keys && sets.Keys == values.Keys
    }

    /**
     * A secret exists when its timestamp is stored; the set and the value
     * are not consulted.
     */
    function SecretExists(id: SecretId): (r: bool)
      reads this
      ensures Valid() ==> (r <==> id in sets) && (r <==> id in values)
    {
      id in tstamps
    }

    /** Whether `entity` may read the secret `id` once it is due. */
    function SecretIsRevealableTo(id: SecretId, entity: Address): (r: bool)
      reads this
      ensures r <==> id in sets && (sets[id] == Anyone || entity in sets[id].entities)
    {
      if id in sets then sets[id].Contains(entity) else false
    }

    /** Stores a new secret of the caller, unless one of that name exists. */
    method CreateSecret(caller: Address, name: string, value: Bytes,
                        revelationSet: RevelationSet, revelationTimestamp: u64)
      returns (r: Result<()>)
      modifies this
      ensures old(SecretExists((caller, name))) ==>
                r == Err(SecretAlreadyExists) &&
                tstamps == old(tstamps) && sets == old(sets) && values == old(values)
      ensures !old(SecretExists((caller, name))) ==>
                r == Ok(()) &&
                tstamps == old(tstamps)[(caller, name) := revelationTimestamp] &&
                sets == old(sets)[(caller, name) := revelationSet] &&
                values == old(values)[(caller, name) := value]
      ensures old(Valid()) ==> Valid()
    {
      var id := (caller, name);
      if SecretExists(id) {
        return Err(SecretAlreadyExists);
      }
      tstamps := tstamps[id := revelationTimestamp];
      sets := sets[id := revelationSet];
      values := values[id := value];
      return Ok(());
    }

    /**
     * The revelation timestamp of `owner`'s secret `name`. The owner always
     * learns it; anyone else must be in the secret's revelation set, and
     * learns it whether or not the secret is due.
     */
    function SecretRevelationTimestamp(caller: Address, owner: Address, name: string): (r: Result<u64>)
      reads this
      ensures r.Ok? <==> (owner, name) in tstamps &&
                         (caller == owner || SecretIsRevealableTo((owner, name), caller))
      ensures r.Ok? ==> r.value == tstamps[(owner, name)]
      ensures caller != owner && !SecretIsRevealableTo((owner, name), caller) ==>
                r == Err(PermissionDenied)
      ensures (caller == owner || SecretIsRevealableTo((owner, name), caller)) && r.Err? ==>
                r.error == SecretDoesntExist
    {
      var id := (owner, name);
      if caller == owner then
        if id in tstamps then Ok(tstamps[id]) else Err(SecretDoesntExist)
      else if !SecretIsRevealableTo(id, caller) then
        Err(PermissionDenied)
      else
        if id in tstamps then Ok(tstamps[id]) else Err(SecretDoesntExist)
    }

    /** The revelation set of the caller's own secret `name`. */
    function SecretRevelationSet(caller: Address, name: string): (r: Result<RevelationSet>)
      reads this
      ensures r.Ok? <==> (caller, name) in sets
      ensures r.Ok? ==> r.value == sets[(caller, name)]
      ensures r.Err? ==> r.error == SecretDoesntExist
    {
      var id := (caller, name);
      if id in sets then Ok(sets[id]) else Err(SecretDoesntExist)
    }

    /** Moves the revelation timestamp of the caller's existing secret `name`. */
    method ResetRevelationTimestamp(caller: Address, name: string, newRevelationTimestamp: u64)
      returns (r: Result<()>)
      modifies this
      ensures !old(SecretExists((caller, name))) ==>
                r == Err(SecretDoesntExist) && tstamps == old(tstamps)
      ensures old(SecretExists((caller, name))) ==>
                r == Ok(()) && tstamps == old(tstamps)[(caller, name) := newRevelationTimestamp]
      ensures sets == old(sets) && values == old(values)
      ensures old(Valid()) ==> Valid()
    {
      var id := (caller, name);
      if !SecretExists(id) {
        return Err(SecretDoesntExist);
      }
      tstamps := tstamps[id := newRevelationTimestamp];
      return Ok(());
    }

    /**
     * The value of `owner`'s secret `name` at block time `now`. The owner
     * always learns it. Anyone else must be in the revelation set, and the
     * revelation timestamp must be stored and not later than `now`.
     */
    function SecretValue(caller: Address, owner: Address, name: string, now: u64): (r: Result<Bytes>)
      reads this
      ensures r.Ok? <==> (owner, name) in values &&
                         (caller == owner ||
                          (SecretIsRevealableTo((owner, name), caller) &&
                           (owner, name) in tstamps && tstamps[(owner, name)] <= now))
      ensures r.Ok? ==> r.value == values[(owner, name)]
      ensures caller == owner && r.Err? ==> r.error == SecretDoesntExist
      ensures caller != owner && !SecretIsRevealableTo((owner, name), caller) ==>
                r == Err(SecretDoesntExist)
      ensures caller != owner && SecretIsRevealableTo((owner, name), caller) &&
              ((owner, name) !in tstamps || tstamps[(owner, name)] > now) ==>
                r == Err(PermissionDenied)
      ensures caller != owner && SecretIsRevealableTo((owner, name), caller) &&
              (owner, name) in tstamps && tstamps[(owner, name)] <= now && r.Err? ==>
                r.error == SecretDoesntExist
    {
      var id := (owner, name);
      if caller == owner then
        if id in values then Ok(values[id]) else Err(SecretDoesntExist)
      else if !SecretIsRevealableTo(id, caller) then
        Err(SecretDoesntExist)
      else if id !in tstamps then
        Err(PermissionDenied)
      else if tstamps[id] > now then
        Err(PermissionDenied)
      else
        if id in values then Ok(values[id]) else Err(SecretDoesntExist)
    }

    /**
     * Removes the caller's secret `name`, if it exists. Never fails, so a
     * second deletion of the same secret succeeds and changes nothing.
     */
    method DeleteSecret(caller: Address, name: string) returns (r: Result<()>)
      modifies this
      ensures r == Ok(())
      ensures !old(SecretExists((caller, name))) ==>
                tstamps == old(tstamps) && sets == old(sets) && values == old(values)
      ensures old(SecretExists((caller, name))) ==>
                tstamps == old(tstamps) - {(caller, name)} &&
                sets == old(sets) - {(caller, name)} &&
                values == old(values) - {(caller, name)}
      ensures old(Valid()) ==> Valid() && !SecretExists((caller, name)) &&
                               (caller, name) !in sets && (caller, name) !in values
    {
      var id := (caller, name);
      if !SecretExists(id) {
        return Ok(());
      }
      tstamps := tstamps - {id};
      sets := sets - {id};
      values := values - {id};
      return Ok(());
    }

    /**
     * Routes a request from `caller`, at block time `now`, to the operation
     * it names and wraps that operation's result in the matching response.
     */
    method Call(caller: Address, now: u64, request: Request) returns (r: Result<Response>)
      modifies this
      ensures old(Valid()) ==> Valid()
      ensures request.Instantiate? ==>
                r == Err(BadRequest) && unchanged(this)
      ensures request.CreateSecret? ==>
                var id := (caller, request.name);
                if old(SecretExists(id)) then
                  r == Err(SecretAlreadyExists) &&
                  tstamps == old(tstamps) && sets == old(sets) && values == old(values)
                else
                  r == Ok(Empty) &&
                  tstamps == old(tstamps)[id := request.revelationTimestamp] &&
                  sets == old(sets)[id := request.revelationSet] &&
                  values == old(values)[id := request.value]
      ensures request.ResetRevelationTimestamp? ==>
                var id := (caller, request.name);
                sets == old(sets) && values == old(values) &&
                if old(SecretExists(id)) then
                  r == Ok(Empty) && tstamps == old(tstamps)[id := request.revelationTimestamp]
                else
                  r == Err(SecretDoesntExist) && tstamps == old(tstamps)
      ensures request.DeleteSecret? ==>
                var id := (caller, request.name);
                r == Ok(Empty) &&
                if old(SecretExists(id)) then
                  tstamps == old(tstamps) - {id} && sets == old(sets) - {id} &&
                  values == old(values) - {id}
                else
                  tstamps == old(tstamps) && sets == old(sets) && values == old(values)
      ensures request.GetRevelationTimestamp? ==>
                unchanged(this) &&
                match SecretRevelationTimestamp(caller, request.owner, request.name)
                case Ok(t) => r == Ok(Response.RevelationTimestamp(t))
                case Err(e) => r == Err(e)
      ensures request.GetRevelationSet? ==>
                unchanged(this) &&
                match SecretRevelationSet(caller, request.name)
                case Ok(s) => r == Ok(Response.RevelationSet(s))
                case Err(e) => r == Err(e)
      ensures request.GetSecretValue? ==>
                unchanged(this) &&
                match SecretValue(caller, request.owner, request.name, now)
                case Ok(v) => r == Ok(Response.SecretValue(v))
                case Err(e) => r == Err(e)
    {
      match request
      case CreateSecret(name, value, revelationSet, revelationTimestamp) =>
        var res := CreateSecret(caller, name, value, revelationSet, revelationTimestamp);
        r := if res.Ok? then Ok(ResponseFromUnit(res.value)) else Err(res.error);
      case ResetRevelationTimestamp(name, revelationTimestamp) =>
        var res := ResetRevelationTimestamp(caller, name, revelationTimestamp);
        r := if res.Ok? then Ok(ResponseFromUnit(res.value)) else Err(res.error);
      case DeleteSecret(name) =>
        var res := DeleteSecret(caller, name);
        r := Ok(ResponseFromUnit(res.value));
      case GetRevelationTimestamp(owner, name) =>
        var res := SecretRevelationTimestamp(caller, owner, name);
        r := if res.Ok? then Ok(Response.RevelationTimestamp(res.value)) else Err(res.error);
      case GetRevelationSet(name) =>
        var res := SecretRevelationSet(caller, name);
        r := if res.Ok? then Ok(Response.RevelationSet(res.value)) else Err(res.error);
      case GetSecretValue(owner, name) =>
        var res := SecretValue(caller, owner, name, now);
        r := if res.Ok? then Ok(Response.SecretValue(res.value)) else Err(res.error);
      case Instantiate =>
        r := Err(BadRequest);
    }
  }

  /** Instantiation accepts the `Instantiate` request and nothing else. */
  function InstantiateContract(request: Request): (r: Result<()>)
    ensures r.Ok? <==> request.Instantiate?
    ensures r.Err? ==> r.error == BadRequest
  {
    if request.Instantiate? then Ok(()) else Err(BadRequest)
  }

  /** The read-only query entry point answers no request. */
  function Query(request: Request): (r: Result<Response>)
    ensures r == Err(BadRequest)
  {
    Err(BadRequest)
  }

  /** The contract calls no other contract, so any reply is unexpected. */
  function HandleReply(reply: Reply): (r: Result<Option<Response>>)
    ensures r == Err(BadRequest)
  {
    Err(BadRequest)
  }

  /** The contract cannot be upgraded: the old code refuses to hand over. */
  function PreUpgrade(request: Request): (r: Result<()>)
    ensures r == Err(UpgradeNotAllowed)
  {
    Err(UpgradeNotAllowed)
  }

  /** The contract cannot be upgraded: new code refuses to take over. */
  function PostUpgrade(request: Request): (r: Result<()>)
    ensures r == Err(UpgradeNotAllowed)
  {
    Err(UpgradeNotAllowed)
  }
}
