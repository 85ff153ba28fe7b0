/**
 * Pulling events: `pullEventRaw` takes the next tuple the host delivers and decodes it with
 * the registered initialiser for its first element, or as a generic event; the filtered pulls
 * built on it retry or classify.
 */
module EventPull {
  import opened Wrappers
  import opened Values
  import opened Events
  import opened EventProperties
  import opened EventRoundTrip
  import opened Registry

  /** The decoding step of `pullEventRaw`: the registered `init` for `args[0]`, else a generic event. */
  function DecodeWith(table: map<string, EventClass>, args: seq<Value>): Result<Event, DecodeError> {
    var name := At(args, 0);
    if name.Str? && name.s in table then Init(table[name.s], args) else Ok(Generic(args))
  }

  /** A decoding of host tuples into events, as `pullEventRaw` performs it. */
  type Decoder = seq<Value> -> Result<Event, DecodeError>

  /** Whether the host hands `tuple` to a coroutine waiting with `filter`. */
  predicate Delivers(filter: Option<string>, terminatePassesFilter: bool, tuple: seq<Value>) {
    filter.None? || At(tuple, 0) == Str(filter.value) || (terminatePassesFilter && At(tuple, 0) == Str("terminate"))
  }

  predicate HasDelivery(pending: seq<seq<Value>>, filter: Option<string>, terminatePassesFilter: bool) {
    exists i :: 0 <= i < |pending| && Delivers(filter, terminatePassesFilter, pending[i])
  }

  /** The position of the tuple the host delivers next; the ones before it never reach the caller. */
  function NextDelivered(pending: seq<seq<Value>>, filter: Option<string>, terminatePassesFilter: bool): (k: nat)
    requires HasDelivery(pending, filter, terminatePassesFilter)
    ensures k < |pending| && Delivers(filter, terminatePassesFilter, pending[k])
    ensures forall i :: 0 <= i < k ==> !Delivers(filter, terminatePassesFilter, pending[i])
    decreases |pending|
  {
    if Delivers(filter, terminatePassesFilter, pending[0]) then 0
    else
      assert HasDelivery(pending[1..], filter, terminatePassesFilter) by {
        var i :| 0 <= i < |pending| && Delivers(filter, terminatePassesFilter, pending[i]);
        assert pending[1..][i - 1] == pending[i];
      }
      var k := NextDelivered(pending[1..], filter, terminatePassesFilter);
      assert forall i :: 1 <= i < k + 1 ==> pending[i] == pending[1..][i - 1];
      k + 1
  }

  /** Whether `pullMultipleEventRaw` stops at this decoding: an error, a terminate, or a wanted name. */
  predicate Stops(decoded: Result<Event, DecodeError>, filters: seq<string>) {
    decoded.Err? || decoded.value.Terminate? || (Name(decoded.value).Str? && Name(decoded.value).s in filters)
  }

  predicate HasStop(decode: Decoder, pending: seq<seq<Value>>, filters: seq<string>) {
    exists i :: 0 <= i < |pending| && Stops(decode(pending[i]), filters)
  }

  /** The position of the tuple `pullMultipleEventRaw` returns; every tuple before it is discarded. */
  function StopIndex(decode: Decoder, pending: seq<seq<Value>>, filters: seq<string>): (k: nat)
    requires HasStop(decode, pending, filters)
    ensures k < |pending| && Stops(decode(pending[k]), filters)
    ensures forall i :: 0 <= i < k ==> !Stops(decode(pending[i]), filters)
    decreases |pending|
  {
    if Stops(decode(pending[0]), filters) then 0
    else
      assert HasStop(decode, pending[1..], filters) by {
        var i :| 0 <= i < |pending| && Stops(decode(pending[i]), filters);
        assert pending[1..][i - 1] == pending[i];
      }
      var k := StopIndex(decode, pending[1..], filters);
      assert forall i :: 1 <= i < k + 1 ==> pending[i] == pending[1..][i - 1];
      k + 1
  }

  /** What `pullMultipleEventRaw` returns, and the tuples left after it. */
  function MultiPull(decode: Decoder, pending: seq<seq<Value>>, filters: seq<string>): (Result<Event, DecodeError>, seq<seq<Value>>)
    requires HasStop(decode, pending, filters)
    decreases |pending|
  {
    if Stops(decode(pending[0]), filters) then (decode(pending[0]), pending[1..])
    else
      assert HasStop(decode, pending[1..], filters) by {
        var i :| 0 <= i < |pending| && Stops(decode(pending[i]), filters);
        assert pending[1..][i - 1] == pending[i];
      }
      MultiPull(decode, pending[1..], filters)
  }

  /**
   * `pullMultipleEventRaw` returns the first tuple that decodes to an error, a terminate or a
   * wanted name, and discards every tuple before it.
   */
  lemma {:induction false} MultiPullFirstStop(decode: Decoder, pending: seq<seq<Value>>, filters: seq<string>)
    requires HasStop(decode, pending, filters)
    ensures var k := StopIndex(decode, pending, filters);
            MultiPull(decode, pending, filters) == (decode(pending[k]), pending[k + 1..])
    decreases |pending|
  {
    if !Stops(decode(pending[0]), filters) {
      MultiPullSkip(decode, pending, filters);
      MultiPullFirstStop(decode, pending[1..], filters);
      var k' := StopIndex(decode, pending[1..], filters);
      assert pending[1..][k'] == pending[k' + 1];
      assert pending[1..][k' + 1..] == pending[k' + 2..];
    }
  }

  /** A tuple that does not stop the pull is skipped by both the pull and its stop index. */
  lemma MultiPullSkip(decode: Decoder, pending: seq<seq<Value>>, filters: seq<string>)
    requires HasStop(decode, pending, filters) && !Stops(decode(pending[0]), filters)
    ensures HasStop(decode, pending[1..], filters)
    ensures MultiPull(decode, pending, filters) == MultiPull(decode, pending[1..], filters)
    ensures StopIndex(decode, pending, filters) == StopIndex(decode, pending[1..], filters) + 1
  {
    var i :| 0 <= i < |pending| && Stops(decode(pending[i]), filters);
    assert pending[1..][i - 1] == pending[i];
  }

  /** The filters `pullEventAs` uses: the given one, or the class's `TYPES`. */
  function AsFilters(c: EventClass, filter: Option<string>): seq<string> {
    if filter.Some? then [filter.value] else Types(c)
  }

  /** Whether a pull over `filters`, as `pullEventAs` chooses it, can return. */
  predicate PullReady(decode: Decoder, pending: seq<seq<Value>>, filters: seq<string>, terminatePassesFilter: bool) {
    if |filters| <= 1 then HasDelivery(pending, if filters == [] then None else Some(filters[0]), terminatePassesFilter)
    else HasStop(decode, pending, filters)
  }

  /** The tuple a pull over `filters` returns, and the tuples left after it (the branch of `pullEventAs`). */
  function Pulled(decode: Decoder, pending: seq<seq<Value>>, filters: seq<string>,
                  terminatePassesFilter: bool): (Result<Event, DecodeError>, seq<seq<Value>>)
    requires PullReady(decode, pending, filters, terminatePassesFilter)
  {
    if |filters| <= 1 then
      var k := NextDelivered(pending, if filters == [] then None else Some(filters[0]), terminatePassesFilter);
      (decode(pending[k]), pending[k + 1..])
    else MultiPull(decode, pending, filters)
  }

  /** The `{ match, event }` answer of `pullEventAs` for a pulled event, or the error thrown. */
  function Classified(decoded: Result<Event, DecodeError>, c: EventClass): Result<(bool, Event), DecodeError> {
    if decoded.Err? then Err(decoded.error) else Ok((ClassOf(decoded.value) == c, decoded.value))
  }

  /** What `pullEventAs` returns and which tuples it consumes. */
  function PullAs(decode: Decoder, pending: seq<seq<Value>>, c: EventClass, filter: Option<string>,
                  terminatePassesFilter: bool): (Result<(bool, Event), DecodeError>, seq<seq<Value>>)
    requires PullReady(decode, pending, AsFilters(c, filter), terminatePassesFilter)
  {
    var pulled := Pulled(decode, pending, AsFilters(c, filter), terminatePassesFilter);
    (Classified(pulled.0, c), pulled.1)
  }

  /** The host: the tuples it will deliver, and whether a filtered pull still receives `terminate`. */
  class Host {
    var pending: seq<seq<Value>>
    const terminatePassesFilter: bool
    /** The decoding `pullEventRaw` applies, with the initialiser table it was given. */
    const decode: Decoder

    constructor(tuples: seq<seq<Value>>, terminatePasses: bool, table: map<string, EventClass>)
      ensures pending == tuples && terminatePassesFilter == terminatePasses
      ensures forall args :: decode(args) == DecodeWith(table, args)
    {
      pending := tuples;
      terminatePassesFilter := terminatePasses;
      decode := args => DecodeWith(table, args);
    }

    /** `pullEventRaw(filter)`: the next delivered tuple, decoded. */
    method PullEventRaw(filter: Option<string>) returns (r: Result<Event, DecodeError>)
      requires HasDelivery(pending, filter, terminatePassesFilter)
      modifies this
      ensures var k := NextDelivered(old(pending), filter, terminatePassesFilter);
              r == decode(old(pending)[k]) && pending == old(pending)[k + 1..]
    {
      var k := NextDelivered(pending, filter, terminatePassesFilter);
      var args := pending[k];
      pending := pending[k + 1..];
      r := decode(args);
    }

    /** `pullMultipleEventRaw(filters)`: pulls until a terminate or a wanted name, dropping the rest. */
    method PullMultipleEventRaw(filters: seq<string>) returns (r: Result<Event, DecodeError>)
      requires HasStop(decode, pending, filters)
      modifies this
      ensures (r, pending) == MultiPull(decode, old(pending), filters)
    {
      ghost var prev := pending;
      r := PullEventRaw(None);
      while !Stops(r, filters)
        invariant HasStop(decode, prev, filters) && |prev| > 0
        invariant r == decode(prev[0]) && pending == prev[1..]
        invariant MultiPull(decode, prev, filters) == MultiPull(decode, old(pending), filters)
        decreases |pending|
      {
        prev := pending;
        r := PullEventRaw(None);
      }
    }

    /** The branch of `pullEventAs`: one filter goes through `pullEventRaw`, several through `pullMultipleEventRaw`. */
    method PullFiltered(filters: seq<string>) returns (ev: Result<Event, DecodeError>)
      requires PullReady(decode, pending, filters, terminatePassesFilter)
      modifies this
      ensures (ev, pending) == Pulled(decode, old(pending), filters, terminatePassesFilter)
    {
      if |filters| <= 1 {
        ev := PullEventRaw(if filters == [] then None else Some(filters[0]));
      } else {
        ev := PullMultipleEventRaw(filters);
      }
    }

    /** `pullEventAs(c, filter)`: the pulled event, and whether it is a `c` event. */
    method PullEventAs(c: EventClass, filter: Option<string>) returns (r: Result<(bool, Event), DecodeError>)
      requires PullReady(decode, pending, AsFilters(c, filter), terminatePassesFilter)
      modifies this
      ensures (r, pending) == PullAs(decode, old(pending), c, filter, terminatePassesFilter)
    {
      var ev := PullFiltered(AsFilters(c, filter));
      r := Classified(ev, c);
    }
  }

  /** A decoded event names the discriminator it was decoded from. */
  lemma DecodeWithName(table: map<string, EventClass>, args: seq<Value>)
    ensures DecodeWith(table, args).Ok? ==> Name(DecodeWith(table, args).value) == At(args, 0)
  {
    var name := At(args, 0);
    if name.Str? && name.s in table {
      Decoded(table[name.s], args);
    }
  }

  /** With the registry loaded, a tuple whose discriminator `c` declares decodes to a `c` event. */
  lemma ClassFromName(table: map<string, EventClass>, args: seq<Value>, c: EventClass)
    requires Consistent(table, AllClasses) && c != GenericClass
    requires At(args, 0).Str? && At(args, 0).s in Types(c)
    ensures DecodeWith(table, args).Ok? ==> ClassOf(DecodeWith(table, args).value) == c
  {
    RegisteredName(table, c, At(args, 0).s);
    Decoded(c, args);
  }

  /** With the registry loaded, an event whose name `c` declares is a `c` event. */
  lemma NameFixesClass(table: map<string, EventClass>, args: seq<Value>, c: EventClass)
    requires Consistent(table, AllClasses) && c != GenericClass
    requires DecodeWith(table, args).Ok?
    requires Name(DecodeWith(table, args).value).Str? && Name(DecodeWith(table, args).value).s in Types(c)
    ensures ClassOf(DecodeWith(table, args).value) == c
  {
    DecodeWithName(table, args);
    ClassFromName(table, args, c);
  }

  /** With the registry loaded, a `terminate` tuple decodes to a terminate event. */
  lemma TerminateFromName(table: map<string, EventClass>, args: seq<Value>)
    requires Consistent(table, AllClasses)
    requires At(args, 0) == Str("terminate")
    ensures DecodeWith(table, args).Ok? ==> DecodeWith(table, args).value.Terminate?
  {
    ClassFromName(table, args, TerminateClass);
  }

  /** Every class but the generic one declares at least one discriminator. */
  lemma TypesNonEmpty(c: EventClass)
    requires c != GenericClass
    ensures |Types(c)| > 0
  {
  }

  /**
   * `pullEventAs(c)` without a filter reports a mismatch only for a terminate event: every
   * other tuple it can receive carries one of `c.TYPES` and so decodes to a `c` event.
   */
  lemma AsMismatchIsTerminate(table: map<string, EventClass>, decode: Decoder, pending: seq<seq<Value>>,
                              c: EventClass, terminatePassesFilter: bool)
    requires Consistent(table, AllClasses) && c != GenericClass
    requires forall args :: decode(args) == DecodeWith(table, args)
    requires PullReady(decode, pending, Types(c), terminatePassesFilter)
    ensures var r := PullAs(decode, pending, c, None, terminatePassesFilter).0;
            r.Ok? && !r.value.0 ==> r.value.1.Terminate? && c != TerminateClass
  {
    var filters := Types(c);
    TypesNonEmpty(c);
    if |filters| <= 1 {
      SingleMismatch(table, decode, pending, c, filters, terminatePassesFilter);
    } else {
      MultiMismatch(table, decode, pending, c, filters);
    }
  }

  lemma SingleMismatch(table: map<string, EventClass>, decode: Decoder, pending: seq<seq<Value>>,
                       c: EventClass, filters: seq<string>, terminatePassesFilter: bool)
    requires Consistent(table, AllClasses) && c != GenericClass && filters == Types(c) && |filters| == 1
    requires forall args :: decode(args) == DecodeWith(table, args)
    requires HasDelivery(pending, Some(filters[0]), terminatePassesFilter)
    ensures var r := Classified(Pulled(decode, pending, filters, terminatePassesFilter).0, c);
            r.Ok? && !r.value.0 ==> r.value.1.Terminate? && c != TerminateClass
  {
    var k := NextDelivered(pending, Some(filters[0]), terminatePassesFilter);
    var args := pending[k];
    if At(args, 0) == Str(filters[0]) {
      ClassFromName(table, args, c);
    } else {
      TerminateFromName(table, args);
    }
  }

  lemma MultiMismatch(table: map<string, EventClass>, decode: Decoder, pending: seq<seq<Value>>,
                      c: EventClass, filters: seq<string>)
    requires Consistent(table, AllClasses) && c != GenericClass && filters == Types(c) && |filters| > 1
    requires forall args :: decode(args) == DecodeWith(table, args)
    requires HasStop(decode, pending, filters)
    ensures var r := Classified(Pulled(decode, pending, filters, false).0, c);
            r.Ok? && !r.value.0 ==> r.value.1.Terminate? && c != TerminateClass
  {
    MultiPullFirstStop(decode, pending, filters);
    var k := StopIndex(decode, pending, filters);
    var d := decode(pending[k]);
    if d.Ok? && !d.value.Terminate? {
      NameFixesClass(table, pending[k], c);
    }
  }

  /** With the registry loaded, every well-formed non-generic event survives being queued and pulled. */
  lemma RegistryRoundTrip(table: map<string, EventClass>, e: Event)
    requires Consistent(table, AllClasses) && WellFormed(e) && !e.Generic?
    ensures DecodeWith(table, Encode(e)) == Ok(e)
  {
    NameInTypes(e);
    RegisteredName(table, ClassOf(e), Name(e).s);
    assert At(Encode(e), 0) == Name(e);
    RoundTrip(e);
  }

  /** With the registry loaded, a tuple becomes a generic event exactly when no class declares its discriminator. */
  lemma GenericFallback(table: map<string, EventClass>, args: seq<Value>)
    requires Consistent(table, AllClasses)
    ensures DecodeWith(table, args) == Ok(Generic(args)) <==> !(At(args, 0).Str? && At(args, 0).s in TypesOf(AllClasses))
    ensures DecodeWith(table, args).Ok? && DecodeWith(table, args).value.Generic? ==> DecodeWith(table, args) == Ok(Generic(args))
  {
    var name := At(args, 0);
    if name.Str? && name.s in table {
      InstalledNotGeneric(table, name.s);
      InitNotGeneric(table[name.s], args);
    }
  }

  /** A class's own initialiser never yields a generic event. */
  lemma InitNotGeneric(c: EventClass, args: seq<Value>)
    requires c != GenericClass
    ensures Init(c, args).Ok? ==> !Init(c, args).value.Generic?
  {
    var r := Init(c, args);
    if r.Ok? {
      Decoded(c, args);
      GenericOwnClass(r.value);
    }
  }

  lemma GenericOwnClass(e: Event)
    ensures e.Generic? <==> ClassOf(e) == GenericClass
  {
  }

}
