/**
 * The in-memory API-key manager (backend/internal/auth/apikey.go).  A manager keeps every
 * record twice: under its id in `keys` and under the hash of its plaintext key in `hashes`.
 * `Generate` adds to both maps, `Delete` removes from both, `Validate` and `ResolveID` look
 * a plaintext key up by its hash, and `GetAll` lists one summary per id.
 *
 * The hash (sha256 followed by unpadded base64url), the textual form of a UUID, its parser,
 * and the key encoding are the manager's constants, beyond the model's reach; the fresh UUID
 * and the random bytes a generation draws are inputs, each of which may be an error.
 */
module ApiKey {
  import opened Wrappers

  /** A UUID, only ever compared and converted. */
  datatype Uuid = Uuid(bits: nat)

  /** `apiKeyRecord`. */
  datatype Record = Record(id: Uuid, name: string, hash: string)

  /** `authv1.Key`: the id as text, the name and the plaintext key, shown once. */
  datatype Key = Key(id: string, name: string, key: string)

  /** `authv1.KeySummary`. */
  datatype Summary = Summary(id: string, name: string)

  /**
   * The errors the manager returns: `ErrInvalidKeyID` (wrapped around the parser's error),
   * `ErrKeyNotFound`, and whatever the UUID or random source reports.
   */
  datatype KeyError = InvalidKeyID | KeyNotFound | Failure(message: string)

  /**
   * The two maps agree: each record sits under its own id in `keys` and under its own hash
   * in `hashes`, and each map's records are exactly the other's.
   */
  ghost predicate Consistent(keys: map<Uuid, Record>, hashes: map<string, Record>) {
    (forall id :: id in keys ==> keys[id].id == id && keys[id].hash in hashes && hashes[keys[id].hash] == keys[id]) &&
    (forall h :: h in hashes ==> hashes[h].hash == h && hashes[h].id in keys && keys[hashes[h].id] == hashes[h])
  }

  /** Storing a record whose id and hash are both new keeps the maps consistent. */
  lemma InsertConsistent(keys: map<Uuid, Record>, hashes: map<string, Record>, rec: Record)
    requires Consistent(keys, hashes)
    requires rec.id !in keys && rec.hash !in hashes
    ensures Consistent(keys[rec.id := rec], hashes[rec.hash := rec])
  {
  }

  /** Removing a record from both maps keeps them consistent. */
  lemma RemoveConsistent(keys: map<Uuid, Record>, hashes: map<string, Record>, id: Uuid)
    requires Consistent(keys, hashes) && id in keys
    ensures Consistent(keys - {id}, hashes - {keys[id].hash})
  {
    var rec := keys[id];
    forall id' | id' in keys - {id}
      ensures keys[id'].hash != rec.hash
    {
      assert hashes[keys[id'].hash] == keys[id'];
    }
  }

  /**
   * Reusing a hash that is already stored leaves the earlier id in `keys` with no entry
   * in `hashes` of its own: the maps are only kept consistent because hashes of 32 random
   * bytes do not collide.
   */
  lemma CollidingHashBreaksConsistency()
    ensures var old1 := Record(Uuid(1), "a", "h");
      var new2 := Record(Uuid(2), "b", "h");
      Consistent(map[Uuid(1) := old1], map["h" := old1]) &&
      !Consistent(map[Uuid(1) := old1][Uuid(2) := new2], map["h" := old1]["h" := new2])
  {
    var old1 := Record(Uuid(1), "a", "h");
    var new2 := Record(Uuid(2), "b", "h");
    var keys := map[Uuid(1) := old1][Uuid(2) := new2];
    var hashes := map["h" := old1]["h" := new2];
    assert hashes[keys[Uuid(1)].hash] != keys[Uuid(1)];
  }

  class Manager {
    var keys: map<Uuid, Record>
    var hashes: map<string, Record>

    /** `hashAPIKey`. */
    const hashOf: string -> string
    /** `uuid.UUID.String`. */
    const show: Uuid -> string
    /** `uuid.Parse`; `None` is a parse error. */
    const parse: string -> Option<Uuid>
    /** `base64.RawURLEncoding.EncodeToString` on the random bytes. */
    const encodeKey: seq<int> -> string

    ghost predicate Valid()
      reads this
    {
      Consistent(keys, hashes)
    }

    /** `NewManager`: both maps empty. */
    constructor (hashOf: string -> string, show: Uuid -> string, parse: string -> Option<Uuid>, encodeKey: seq<int> -> string)
      ensures keys == map[] && hashes == map[] && Valid()
      ensures this.hashOf == hashOf && this.show == show && this.parse == parse && this.encodeKey == encodeKey
    {
      keys := map[];
      hashes := map[];
      this.hashOf := hashOf;
      this.show := show;
      this.parse := parse;
      this.encodeKey := encodeKey;
    }

    /** `Validate`: the key's hash is stored. */
    predicate Validate(plain: string)
      reads this
    {
      hashOf(plain) in hashes
    }

    /**
     * `ResolveID`: the id of the record stored under the key's hash, or `("", false)`.  It
     * succeeds exactly when `Validate` does, and on a consistent manager the id it gives is
     * that of the record in `keys` whose hash is the key's.
     */
    function ResolveID(plain: string): (r: (string, bool))
      reads this
      ensures r.1 <==> Validate(plain)
      ensures !r.1 ==> r.0 == ""
      ensures Valid() && r.1 ==>
        exists id :: id in keys && keys[id].hash == hashOf(plain) && r.0 == show(id)
    {
      var h := hashOf(plain);
      if h in hashes then
        var rec := hashes[h];
        assert Valid() ==> rec.id in keys && keys[rec.id].hash == h;
        (show(rec.id), true)
      else ("", false)
    }

    /**
     * `Generate(name)`, given the outcome of `uuid.NewRandom` and of reading 32 random bytes.
     * Either error is returned and nothing changes.  Otherwise the record goes under its id
     * and under the hash of its encoded key, and the id text, name and key come back; the
     * returned key then validates and resolves to the returned id.  When the id and the
     * hash are both new the maps stay consistent.
     */
    method Generate(name: string, newId: Result<Uuid, string>, randomBytes: Result<seq<int>, string>)
      returns (r: Result<Key, KeyError>)
      modifies this
      ensures newId.Err? ==> r == Err(Failure(newId.error)) && unchanged(this)
      ensures newId.Ok? && randomBytes.Err? ==> r == Err(Failure(randomBytes.error)) && unchanged(this)
      ensures newId.Ok? && randomBytes.Ok? ==>
        var key := encodeKey(randomBytes.value);
        var rec := Record(newId.value, name, hashOf(key));
        keys == old(keys)[newId.value := rec] && hashes == old(hashes)[rec.hash := rec] &&
        r == Ok(Key(show(newId.value), name, key))
      ensures r.Ok? ==> Validate(r.value.key) && ResolveID(r.value.key) == (r.value.id, true)
      ensures old(Valid()) && (r.Ok? ==> newId.value !in old(keys) && hashOf(r.value.key) !in old(hashes)) ==> Valid()
    {
      if newId.Err? {
        return Err(Failure(newId.error));
      }
      var id := newId.value;
      if randomBytes.Err? {
        return Err(Failure(randomBytes.error));
      }
      var key := encodeKey(randomBytes.value);
      var hash := hashOf(key);
      var rec := Record(id, name, hash);
      if Valid() && id !in keys && hash !in hashes {
        InsertConsistent(keys, hashes, rec);
      }
      keys := keys[id := rec];
      hashes := hashes[hash := rec];
      r := Ok(Key(show(id), name, key));
    }

    /** The summary `GetAll` lists for a record: its id as text and its name. */
    function SummaryOf(rec: Record): Summary {
      Summary(show(rec.id), rec.name)
    }

    /**
     * `GetAll`: one summary per entry of `keys`, in an order the map iteration picks; the
     * ghost `order` names the id each summary was taken from, every id exactly once.
     */
    method GetAll() returns (summaries: seq<Summary>, ghost order: seq<Uuid>)
      ensures multiset(order) == multiset(keys.Keys)
      ensures |summaries| == |order| == |keys|
      ensures forall i :: 0 <= i < |order| ==> order[i] in keys && summaries[i] == SummaryOf(keys[order[i]])
    {
      var remaining := keys.Keys;
      summaries, order := [], [];
      while remaining != {}
        invariant remaining <= keys.Keys
        invariant multiset(order) + multiset(remaining) == multiset(keys.Keys)
        invariant |summaries| == |order|
        invariant forall i :: 0 <= i < |order| ==> order[i] in keys && summaries[i] == SummaryOf(keys[order[i]])
        decreases |remaining|
      {
        var id :| id in remaining;
        assert multiset(remaining) == multiset(remaining - {id}) + multiset{id};
        summaries := summaries + [SummaryOf(keys[id])];
        order := order + [id];
        remaining := remaining - {id};
      }
      assert |multiset(order)| == |multiset(keys.Keys)|;
    }

    /**
     * `Delete(idString)`.  An unparsable id is `ErrInvalidKeyID` and an unknown one
     * `ErrKeyNotFound`, and neither changes anything.  Otherwise the record leaves both maps
     * and its summary, under the caller's own id text, comes back; no key with the removed
     * hash validates any more, and every other key validates as before.
     */
    method Delete(idString: string) returns (r: Result<Summary, KeyError>)
      modifies this
      ensures parse(idString).None? ==> r == Err(InvalidKeyID) && unchanged(this)
      ensures parse(idString).Some? && parse(idString).value !in old(keys) ==> r == Err(KeyNotFound) && unchanged(this)
      ensures parse(idString).Some? && parse(idString).value in old(keys) ==>
        var id := parse(idString).value;
        var rec := old(keys)[id];
        r == Ok(Summary(idString, rec.name)) &&
        keys == old(keys) - {id} && hashes == old(hashes) - {rec.hash} &&
        forall plain :: Validate(plain) <==> old(Validate(plain)) && hashOf(plain) != rec.hash
      ensures old(Valid()) ==> Valid()
    {
      var parsed := parse(idString);
      if parsed.None? {
        return Err(InvalidKeyID);
      }
      var id := parsed.value;
      if id !in keys {
        return Err(KeyNotFound);
      }
      var rec := keys[id];
      if Valid() {
        RemoveConsistent(keys, hashes, id);
      }
      keys := keys - {id};
      hashes := hashes - {rec.hash};
      r := Ok(Summary(idString, rec.name));
    }
  }
}
