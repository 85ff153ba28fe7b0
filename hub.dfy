/**
 * The websocket hub's bookkeeping (backend/internal/websocket/hub.go): the set of connected
 * clients, the connections opened under each API-key id, and the choice of credential a
 * request presents.  Connections are opaque ids; the upgrade, the read loop, the messages
 * themselves and the close frames are beyond the model, and which writes fail is an input.
 */
module Hub {
  import opened Wrappers

  /** A websocket connection, known only by identity. */
  type Conn = nat

  /**
   * What the hub reads from an upgrade request: the `api_key` query parameter and the
   * `Authorization` header, each "" when absent (as `Get` returns them).
   */
  datatype Request = Request(apiKey: string, authorization: string)

  /**
   * The hub's validator: `Validate`, and `ResolveID` when the validator is also an
   * `APIKeyResolver`.
   */
  datatype Validator = Validator(validate: string -> bool, resolve: Option<string -> (string, bool)>)

  const BearerPrefix := "Bearer "

  predicate HasPrefix(s: string, prefix: string) {
    |prefix| <= |s| && s[..|prefix|] == prefix
  }

  /**
   * The credential a request presents: a non-empty `api_key` query parameter, or else the
   * remainder of an `Authorization` header that begins with "Bearer ".
   */
  function Credential(req: Request): (r: Option<string>)
    ensures req.apiKey != "" ==> r == Some(req.apiKey)
    ensures req.apiKey == "" ==> (r.Some? <==> HasPrefix(req.authorization, BearerPrefix))
    ensures r.Some? && req.apiKey == "" ==> BearerPrefix + r.value == req.authorization
  {
    if req.apiKey != "" then Some(req.apiKey)
    else if HasPrefix(req.authorization, BearerPrefix) then Some(req.authorization[|BearerPrefix|..])
    else None
  }

  /**
   * `isAuthorized`: with no validator every request is let in; otherwise the query key is
   * validated if there is one, and the header is ignored, and failing that the remainder of
   * a Bearer header is; anything else is refused.  That is: the presented credential, if
   * any, is what gets validated.
   */
  function IsAuthorized(validator: Option<Validator>, req: Request): (r: bool)
    ensures r <==> validator.None? || (Credential(req).Some? && validator.value.validate(Credential(req).value))
  {
    if validator.None? then true
    else if req.apiKey != "" then validator.value.validate(req.apiKey)
    else if req.authorization != "" && HasPrefix(req.authorization, BearerPrefix) then
      validator.value.validate(req.authorization[|BearerPrefix|..])
    else false
  }

  /**
   * `resolveKeyID`: "" unless the validator is a resolver; otherwise the id that the
   * presented credential resolves to, or "" when it does not resolve.  A query key that
   * does not resolve gives "" without the header being looked at.
   */
  function ResolveKeyID(validator: Option<Validator>, req: Request): (r: string)
    ensures validator.None? || validator.value.resolve.None? ==> r == ""
    ensures validator.Some? && validator.value.resolve.Some? ==>
      var resolve := validator.value.resolve.value;
      r == (if Credential(req).Some? && resolve(Credential(req).value).1 then resolve(Credential(req).value).0 else "")
  {
    if validator.None? || validator.value.resolve.None? then ""
    else
      var resolve := validator.value.resolve.value;
      if req.apiKey != "" then
        var (id, ok) := resolve(req.apiKey);
        if ok then id else ""
      else if req.authorization != "" && HasPrefix(req.authorization, BearerPrefix) then
        var (id, ok) := resolve(req.authorization[|BearerPrefix|..]);
        if ok then id else ""
      else ""
  }

  /** A non-empty query key decides both questions alone: any header gives the same answers. */
  lemma QueryKeyTakesPrecedence(validator: Option<Validator>, req: Request, header: string)
    requires req.apiKey != ""
    ensures IsAuthorized(validator, req) == IsAuthorized(validator, Request(req.apiKey, header))
    ensures ResolveKeyID(validator, req) == ResolveKeyID(validator, Request(req.apiKey, header))
  {
  }

  /**
   * When the resolver resolves exactly the keys the validator accepts and never to "" (as
   * the API-key manager does), a request that resolves to an id is also authorized.
   */
  lemma ResolvedIsAuthorized(validator: Option<Validator>, req: Request)
    requires validator.Some? && validator.value.resolve.Some?
    requires forall p :: validator.value.resolve.value(p).1 <==> validator.value.validate(p)
    requires ResolveKeyID(validator, req) != ""
    ensures IsAuthorized(validator, req)
  {
  }

  /** The connections opened under `id`, empty when there is no entry. */
  function Members(byKeyID: map<string, set<Conn>>, id: string): set<Conn> {
    if id in byKeyID then byKeyID[id] else {}
  }

  /** Every id that has an entry has at least one connection under it. */
  predicate NoEmptySets(byKeyID: map<string, set<Conn>>) {
    forall id :: id in byKeyID ==> byKeyID[id] != {}
  }

  class Hub {
    /** `clients`; the map's values are always true, so it is a set. */
    var clients: set<Conn>
    var byKeyID: map<string, set<Conn>>

    ghost predicate Valid()
      reads this
    {
      NoEmptySets(byKeyID)
    }

    /** `NewHub`: no clients and no key ids. */
    constructor ()
      ensures clients == {} && byKeyID == map[] && Valid()
    {
      clients := {};
      byKeyID := map[];
    }

    /** `attachKeyIDLocked`: the entry is created if absent, and the connection is added to it. */
    method AttachKeyID(conn: Conn, id: string)
      modifies this
      ensures byKeyID == old(byKeyID)[id := Members(old(byKeyID), id) + {conn}]
      ensures clients == old(clients)
      ensures old(Valid()) ==> Valid()
    {
      var conns := Members(byKeyID, id);
      byKeyID := byKeyID[id := conns + {conn}];
    }

    /**
     * `detachKeyIDLocked`: nothing happens when `id` has no entry; otherwise the connection
     * leaves it, and the entry goes once it is empty, so no empty set is ever left behind.
     */
    method DetachKeyID(conn: Conn, id: string)
      modifies this
      ensures id !in old(byKeyID) ==> byKeyID == old(byKeyID)
      ensures id in old(byKeyID) ==>
        var rest := old(byKeyID)[id] - {conn};
        byKeyID == if rest == {} then old(byKeyID) - {id} else old(byKeyID)[id := rest]
      ensures Members(byKeyID, id) == Members(old(byKeyID), id) - {conn}
      ensures forall other :: other != id ==> Members(byKeyID, other) == Members(old(byKeyID), other)
      ensures clients == old(clients)
      ensures old(Valid()) ==> Valid()
    {
      if id !in byKeyID {
        return;
      }
      var conns := byKeyID[id] - {conn};
      if conns == {} {
        byKeyID := byKeyID - {id};
      } else {
        byKeyID := byKeyID[id := conns];
      }
    }

    /**
     * `CloseByKeyID`: "" is ignored; otherwise the id's entry goes and every connection that
     * was under it leaves `clients`, one at a time.
     */
    method CloseByKeyID(id: string)
      modifies this
      ensures id == "" ==> clients == old(clients) && byKeyID == old(byKeyID)
      ensures id != "" ==>
        byKeyID == old(byKeyID) - {id} && clients == old(clients) - Members(old(byKeyID), id)
      ensures old(Valid()) ==> Valid()
    {
      if id == "" {
        return;
      }
      var conns := Members(byKeyID, id);
      byKeyID := byKeyID - {id};
      var remaining := conns;
      while remaining != {}
        invariant remaining <= conns
        invariant clients == old(clients) - (conns - remaining)
        invariant byKeyID == old(byKeyID) - {id}
        decreases |remaining|
      {
        var conn :| conn in remaining;
        clients := clients - {conn};
        remaining := remaining - {conn};
      }
    }

    /**
     * The registration `HandleWS` does once the upgrade succeeds: the connection becomes a
     * client and is attached under its key id when it has one.
     */
    method Connect(conn: Conn, keyID: string)
      modifies this
      ensures clients == old(clients) + {conn}
      ensures byKeyID == if keyID == "" then old(byKeyID) else old(byKeyID)[keyID := Members(old(byKeyID), keyID) + {conn}]
      ensures old(Valid()) ==> Valid()
    {
      clients := clients + {conn};
      if keyID != "" {
        AttachKeyID(conn, keyID);
      }
    }

    /**
     * The clean-up `HandleWS` does when a read fails: the connection stops being a client
     * and is detached from its key id.
     */
    method Disconnect(conn: Conn, keyID: string)
      modifies this
      ensures clients == old(clients) - {conn}
      ensures keyID == "" ==> byKeyID == old(byKeyID)
      ensures keyID != "" ==> Members(byKeyID, keyID) == Members(old(byKeyID), keyID) - {conn}
      ensures forall other :: other != keyID ==> Members(byKeyID, other) == Members(old(byKeyID), other)
      ensures keyID != "" && keyID in old(byKeyID) ==>
        var rest := old(byKeyID)[keyID] - {conn};
        byKeyID == if rest == {} then old(byKeyID) - {keyID} else old(byKeyID)[keyID := rest]
      ensures keyID !in old(byKeyID) ==> byKeyID == old(byKeyID)
      ensures old(Valid()) ==> Valid()
    {
      clients := clients - {conn};
      if keyID != "" {
        DetachKeyID(conn, keyID);
      }
    }

    /**
     * One message of `Run`'s loop: it is written to every client in turn, and a client whose
     * write fails (one in `failed`) is closed and leaves `clients`.  The key-id entries are
     * not touched, so such a connection stays under its key id until it is detached.
     */
    method Deliver(failed: set<Conn>)
      modifies this
      ensures clients == old(clients) - failed
      ensures byKeyID == old(byKeyID)
      ensures old(Valid()) ==> Valid()
    {
      var pending := clients;
      while pending != {}
        invariant pending <= old(clients)
        invariant clients == old(clients) - (failed * (old(clients) - pending))
        invariant byKeyID == old(byKeyID)
        decreases |pending|
      {
        var client :| client in pending;
        if client in failed {
          clients := clients - {client};
        }
        pending := pending - {client};
      }
    }
  }
}
