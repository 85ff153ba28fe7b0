/**
 * The table of event initialisers: `addEventInit` installs a class's `init` under each of its
 * `TYPES` and refuses a discriminator that is already installed; loading the module installs
 * every class in turn.
 */
module Registry {
  import opened Wrappers
  import opened Events

  /** The classes the module registers, in the order it registers them. */
  const AllClasses: seq<EventClass> := [
    CharClass, KeyClass, PasteClass, TimerClass, TaskCompleteClass, RedstoneClass, TerminateClass,
    DiskClass, PeripheralClass, RednetMessageClass, ModemMessageClass, HttpClass,
    WebSocketMessageClass, WebSocketCloseClass, WebSocketConnectClass, MouseClass, ResizeClass,
    TurtleInventoryClass, SpeakerAudioEmptyClass, ComputerCommandClass, LogClass, MetricClass,
    MetricRegisterClass, MetricUnregisterClass, MetricCollectClass, MetricResponseClass
  ]

  /** The class declaring the discriminator `t`, read off the class declarations. */
  function Lookup(t: string): Option<EventClass> {
    match t
    case "char" => Some(CharClass)
    case "key" => Some(KeyClass)
    case "key_up" => Some(KeyClass)
    case "paste" => Some(PasteClass)
    case "timer" => Some(TimerClass)
    case "alarm" => Some(TimerClass)
    case "task_complete" => Some(TaskCompleteClass)
    case "redstone" => Some(RedstoneClass)
    case "terminate" => Some(TerminateClass)
    case "disk" => Some(DiskClass)
    case "disk_eject" => Some(DiskClass)
    case "peripheral" => Some(PeripheralClass)
    case "peripheral_detach" => Some(PeripheralClass)
    case "rednet_message" => Some(RednetMessageClass)
    case "modem_message" => Some(ModemMessageClass)
    case "http_success" => Some(HttpClass)
    case "http_failure" => Some(HttpClass)
    case "websocket_message" => Some(WebSocketMessageClass)
    case "websocket_closed" => Some(WebSocketCloseClass)
    case "websocket_success" => Some(WebSocketConnectClass)
    case "websocket_failure" => Some(WebSocketConnectClass)
    case "mouse_click" => Some(MouseClass)
    case "mouse_up" => Some(MouseClass)
    case "mouse_scroll" => Some(MouseClass)
    case "mouse_drag" => Some(MouseClass)
    case "monitor_touch" => Some(MouseClass)
    case "mouse_move" => Some(MouseClass)
    case "term_resize" => Some(ResizeClass)
    case "monitor_resize" => Some(ResizeClass)
    case "turtle_inventory" => Some(TurtleInventoryClass)
    case "speaker_audio_empty" => Some(SpeakerAudioEmptyClass)
    case "computer_command" => Some(ComputerCommandClass)
    case "log" => Some(LogClass)
    case "metric" => Some(MetricClass)
    case "metric_register" => Some(MetricRegisterClass)
    case "metric_unregister" => Some(MetricUnregisterClass)
    case "metric_collect" => Some(MetricCollectClass)
    case "metric_response" => Some(MetricResponseClass)
    case _ => None
  }

  /** The elements of a list, as a set. */
  function Elems(xs: seq<string>): (r: set<string>)
    ensures forall t :: t in r <==> t in xs
  {
    set t | t in xs
  }

  /** Every discriminator some class in `cs` declares. */
  function TypesOf(cs: seq<EventClass>): set<string> {
    if cs == [] then {} else TypesOf(cs[..|cs| - 1]) + Elems(Types(cs[|cs| - 1]))
  }

  /** The message `addEventInit` throws for a discriminator that is already installed. */
  function DuplicateMessage(t: string): string {
    "event of type " + t + " has already been defined"
  }

  /**
   * Where installing `types` one by one over the discriminators `seen` first meets one that is
   * already there (`|types|` if it never does).
   */
  function FirstClash(seen: set<string>, types: seq<string>): nat
    decreases |types|
  {
    if types == [] then 0
    else if types[0] in seen then 0
    else 1 + FirstClash(seen + {types[0]}, types[1..])
  }

  /** The entries `addEventInit` installs for the first `k` discriminators of a class. */
  function Installed(types: seq<string>, k: nat, c: EventClass): map<string, EventClass>
    requires k <= |types|
  {
    map t | t in types[..k] :: c
  }

  lemma UpdateUnion<K, V>(a: map<K, V>, b: map<K, V>, k: K, v: V)
    ensures (a + b)[k := v] == a + b[k := v]
  {
  }

  lemma PrefixStep<T>(s: seq<T>, i: nat)
    requires i < |s|
    ensures s[..i + 1] == s[..i] + [s[i]]
  {
  }

  lemma InstalledStep(types: seq<string>, i: nat, c: EventClass)
    requires i < |types|
    ensures Installed(types, i + 1, c) == Installed(types, i, c)[types[i] := c]
  {
    assert types[..i + 1] == types[..i] + [types[i]];
  }

  /**
   * `FirstClash` is the first position whose discriminator is in `seen` or earlier in `types`;
   * every position before it is fresh.
   */
  lemma {:induction false} FirstClashMeaning(seen: set<string>, types: seq<string>)
    ensures FirstClash(seen, types) <= |types|
    ensures forall i :: 0 <= i < FirstClash(seen, types) ==> types[i] !in seen && types[i] !in types[..i]
    ensures FirstClash(seen, types) < |types| ==>
              var k := FirstClash(seen, types); types[k] in seen || types[k] in types[..k]
    decreases |types|
  {
    if types != [] && types[0] !in seen {
      var rest := types[1..];
      FirstClashMeaning(seen + {types[0]}, rest);
      var k := FirstClash(seen, types);
      forall i | 0 <= i < k
        ensures types[i] !in seen && types[i] !in types[..i]
      {
        if i > 0 {
          assert types[i] == rest[i - 1];
          assert types[..i] == [types[0]] + rest[..i - 1];
        }
      }
      if k < |types| {
        assert types[k] == rest[k - 1];
        assert types[..k] == [types[0]] + rest[..k - 1];
      }
    }
  }

  /** Installing fresh, distinct discriminators never clashes. */
  lemma NoClash(seen: set<string>, types: seq<string>)
    requires forall i :: 0 <= i < |types| ==> types[i] !in seen
    requires forall i, j :: 0 <= i < j < |types| ==> types[i] != types[j]
    ensures FirstClash(seen, types) == |types|
  {
    FirstClashMeaning(seen, types);
  }

  class EventRegistry {
    /** `eventInitializers`: the class whose `init` handles each discriminator. */
    var initializers: map<string, EventClass>

    constructor()
      ensures initializers == map[]
    {
      initializers := map[];
    }

    /**
     * `addEventInit`: installs the class `c` under each discriminator of its `TYPES` list
     * `types` in order, and stops with the "already defined" error at the first one already
     * installed; the ones before it stay installed.
     */
    method AddEventInit(c: EventClass, types: seq<string>) returns (error: Option<string>)
      modifies this
      ensures var k := FirstClash(old(initializers).Keys, types);
              k <= |types| &&
              initializers == old(initializers) + Installed(types, k, c) &&
              error == if k < |types| then Some(DuplicateMessage(types[k])) else None
    {
      FirstClashMeaning(initializers.Keys, types);
      var i := 0;
      while i < |types|
        invariant i <= |types|
        invariant FirstClash(old(initializers).Keys, types) == i + FirstClash(initializers.Keys, types[i..])
        invariant initializers == old(initializers) + Installed(types, i, c)
      {
        assert types[i..][0] == types[i] && types[i..][1..] == types[i + 1..];
        if types[i] in initializers {
          return Some(DuplicateMessage(types[i]));
        }
        InstalledStep(types, i, c);
        UpdateUnion(old(initializers), Installed(types, i, c), types[i], c);
        assert initializers[types[i] := c].Keys == initializers.Keys + {types[i]};
        initializers := initializers[types[i] := c];
        i := i + 1;
      }
      return None;
    }

    /**
     * Loading the module: every class installed in turn, and `error` the "already defined"
     * error an installation would throw, which would stop the load. No two classes share a
     * discriminator, so no installation fails, and afterwards exactly the declared
     * discriminators are installed, each under the class declaring it.
     */
    method RegisterAll() returns (error: Option<string>)
      requires initializers == map[]
      modifies this
      ensures error == None
      ensures Consistent(initializers, AllClasses)
    {
      error := None;
      var i := 0;
      while i < |AllClasses|
        invariant i <= |AllClasses|
        invariant error == None
        invariant Consistent(initializers, AllClasses[..i])
      {
        var c := AllClasses[i];
        var types := Types(c);
        GenericNotListed();
        ClassTypes(c);
        ClassesDistinct(i);
        ghost var before := initializers;
        FreshTypes(before, AllClasses[..i], c, types);
        NoClash(initializers.Keys, types);
        error := AddEventInit(c, types);
        PrefixStep(AllClasses, i);
        ConsistentStep(before, AllClasses[..i], c, types, initializers);
        i := i + 1;
      }
      assert AllClasses[..i] == AllClasses;
    }
  }

  /**
   * The table holds exactly the discriminators the classes `done` declare, each under the
   * class that declares it.
   */
  predicate Consistent(m: map<string, EventClass>, done: seq<EventClass>) {
    m.Keys == TypesOf(done) && forall t :: t in m ==> Lookup(t) == Some(m[t]) && m[t] in done
  }

  /** A class not yet installed finds none of its discriminators in the table. */
  lemma FreshTypes(m: map<string, EventClass>, done: seq<EventClass>, c: EventClass, types: seq<string>)
    requires Consistent(m, done) && c !in done
    requires forall t :: t in types ==> Lookup(t) == Some(c)
    ensures forall i :: 0 <= i < |types| ==> types[i] !in m
  {
  }

  lemma ConsistentStep(m: map<string, EventClass>, done: seq<EventClass>, c: EventClass, types: seq<string>,
                       m': map<string, EventClass>)
    requires Consistent(m, done) && types == Types(c)
    requires forall t :: t in types ==> Lookup(t) == Some(c)
    requires m' == m + Installed(types, |types|, c)
    ensures Consistent(m', done + [c])
  {
    assert (done + [c])[..|done|] == done;
    assert types[..|types|] == types;
  }

  /** No discriminator is listed twice. */
  predicate DistinctTypes(types: seq<string>) {
    forall i, j :: 0 <= i < j < |types| ==> types[i] != types[j]
  }

  /** Every discriminator listed is the class `c`'s by the class declarations. */
  predicate OwnedBy(types: seq<string>, c: EventClass) {
    forall t :: t in types ==> Lookup(t) == Some(c)
  }

  /** Each class's discriminators are distinct and belong to it alone: no two classes share one. */
  lemma ClassTypes(c: EventClass)
    requires c != GenericClass
    ensures DistinctTypes(Types(c))
    ensures OwnedBy(Types(c), c)
  {
    match c
    case CharClass => CharTypes();
    case KeyClass => KeyTypes();
    case PasteClass => PasteTypes();
    case TimerClass => TimerTypes();
    case TaskCompleteClass => TaskCompleteTypes();
    case RedstoneClass => RedstoneTypes();
    case TerminateClass => TerminateTypes();
    case DiskClass => DiskTypes();
    case PeripheralClass => PeripheralTypes();
    case RednetMessageClass => RednetMessageTypes();
    case ModemMessageClass => ModemMessageTypes();
    case HttpClass => HttpTypes();
    case WebSocketMessageClass => WebSocketMessageTypes();
    case WebSocketCloseClass => WebSocketCloseTypes();
    case WebSocketConnectClass => WebSocketConnectTypes();
    case MouseClass => MouseTypes();
    case ResizeClass => ResizeTypes();
    case TurtleInventoryClass => TurtleInventoryTypes();
    case SpeakerAudioEmptyClass => SpeakerAudioEmptyTypes();
    case ComputerCommandClass => ComputerCommandTypes();
    case LogClass => LogTypes();
    case MetricClass => MetricTypes();
    case MetricRegisterClass => MetricRegisterTypes();
    case MetricUnregisterClass => MetricUnregisterTypes();
    case MetricCollectClass => MetricCollectTypes();
    case MetricResponseClass => MetricResponseTypes();
  }

  lemma CharTypes()
    ensures DistinctTypes(Types(CharClass))
    ensures OwnedBy(Types(CharClass), CharClass)
  {
    assert Lookup("char") == Some(CharClass);
  }

  lemma KeyTypes()
    ensures DistinctTypes(Types(KeyClass))
    ensures OwnedBy(Types(KeyClass), KeyClass)
  {
    assert Lookup("key") == Some(KeyClass);
    assert Lookup("key_up") == Some(KeyClass);
  }

  lemma PasteTypes()
    ensures DistinctTypes(Types(PasteClass))
    ensures OwnedBy(Types(PasteClass), PasteClass)
  {
    assert Lookup("paste") == Some(PasteClass);
  }

  lemma TimerTypes()
    ensures DistinctTypes(Types(TimerClass))
    ensures OwnedBy(Types(TimerClass), TimerClass)
  {
    assert Lookup("timer") == Some(TimerClass);
    assert Lookup("alarm") == Some(TimerClass);
  }

  lemma TaskCompleteTypes()
    ensures DistinctTypes(Types(TaskCompleteClass))
    ensures OwnedBy(Types(TaskCompleteClass), TaskCompleteClass)
  {
    assert Lookup("task_complete") == Some(TaskCompleteClass);
  }

  lemma RedstoneTypes()
    ensures DistinctTypes(Types(RedstoneClass))
    ensures OwnedBy(Types(RedstoneClass), RedstoneClass)
  {
    assert Lookup("redstone") == Some(RedstoneClass);
  }

  lemma TerminateTypes()
    ensures DistinctTypes(Types(TerminateClass))
    ensures OwnedBy(Types(TerminateClass), TerminateClass)
  {
    assert Lookup("terminate") == Some(TerminateClass);
  }

  lemma DiskTypes()
    ensures DistinctTypes(Types(DiskClass))
    ensures OwnedBy(Types(DiskClass), DiskClass)
  {
    assert Lookup("disk") == Some(DiskClass);
    assert Lookup("disk_eject") == Some(DiskClass);
  }

  lemma PeripheralTypes()
    ensures DistinctTypes(Types(PeripheralClass))
    ensures OwnedBy(Types(PeripheralClass), PeripheralClass)
  {
    assert Lookup("peripheral") == Some(PeripheralClass);
    assert Lookup("peripheral_detach") == Some(PeripheralClass);
  }

  lemma RednetMessageTypes()
    ensures DistinctTypes(Types(RednetMessageClass))
    ensures OwnedBy(Types(RednetMessageClass), RednetMessageClass)
  {
    assert Lookup("rednet_message") == Some(RednetMessageClass);
  }

  lemma ModemMessageTypes()
    ensures DistinctTypes(Types(ModemMessageClass))
    ensures OwnedBy(Types(ModemMessageClass), ModemMessageClass)
  {
    assert Lookup("modem_message") == Some(ModemMessageClass);
  }

  lemma HttpTypes()
    ensures DistinctTypes(Types(HttpClass))
    ensures OwnedBy(Types(HttpClass), HttpClass)
  {
    assert Lookup("http_success") == Some(HttpClass);
    assert Lookup("http_failure") == Some(HttpClass);
  }

  lemma WebSocketMessageTypes()
    ensures DistinctTypes(Types(WebSocketMessageClass))
    ensures OwnedBy(Types(WebSocketMessageClass), WebSocketMessageClass)
  {
    assert Lookup("websocket_message") == Some(WebSocketMessageClass);
  }

  lemma WebSocketCloseTypes()
    ensures DistinctTypes(Types(WebSocketCloseClass))
    ensures OwnedBy(Types(WebSocketCloseClass), WebSocketCloseClass)
  {
    assert Lookup("websocket_closed") == Some(WebSocketCloseClass);
  }

  lemma WebSocketConnectTypes()
    ensures DistinctTypes(Types(WebSocketConnectClass))
    ensures OwnedBy(Types(WebSocketConnectClass), WebSocketConnectClass)
  {
    assert Lookup("websocket_success") == Some(WebSocketConnectClass);
    assert Lookup("websocket_failure") == Some(WebSocketConnectClass);
  }

  lemma MouseTypes()
    ensures DistinctTypes(Types(MouseClass))
    ensures OwnedBy(Types(MouseClass), MouseClass)
  {
    assert Lookup("mouse_click") == Some(MouseClass);
    assert Lookup("mouse_up") == Some(MouseClass);
    assert Lookup("mouse_scroll") == Some(MouseClass);
    assert Lookup("mouse_drag") == Some(MouseClass);
    assert Lookup("monitor_touch") == Some(MouseClass);
    assert Lookup("mouse_move") == Some(MouseClass);
  }

  lemma ResizeTypes()
    ensures DistinctTypes(Types(ResizeClass))
    ensures OwnedBy(Types(ResizeClass), ResizeClass)
  {
    assert Lookup("term_resize") == Some(ResizeClass);
    assert Lookup("monitor_resize") == Some(ResizeClass);
  }

  lemma TurtleInventoryTypes()
    ensures DistinctTypes(Types(TurtleInventoryClass))
    ensures OwnedBy(Types(TurtleInventoryClass), TurtleInventoryClass)
  {
    assert Lookup("turtle_inventory") == Some(TurtleInventoryClass);
  }

  lemma SpeakerAudioEmptyTypes()
    ensures DistinctTypes(Types(SpeakerAudioEmptyClass))
    ensures OwnedBy(Types(SpeakerAudioEmptyClass), SpeakerAudioEmptyClass)
  {
    assert Lookup("speaker_audio_empty") == Some(SpeakerAudioEmptyClass);
  }

  lemma ComputerCommandTypes()
    ensures DistinctTypes(Types(ComputerCommandClass))
    ensures OwnedBy(Types(ComputerCommandClass), ComputerCommandClass)
  {
    assert Lookup("computer_command") == Some(ComputerCommandClass);
  }

  lemma LogTypes()
    ensures DistinctTypes(Types(LogClass))
    ensures OwnedBy(Types(LogClass), LogClass)
  {
    assert Lookup("log") == Some(LogClass);
  }

  lemma MetricTypes()
    ensures DistinctTypes(Types(MetricClass))
    ensures OwnedBy(Types(MetricClass), MetricClass)
  {
    assert Lookup("metric") == Some(MetricClass);
  }

  lemma MetricRegisterTypes()
    ensures DistinctTypes(Types(MetricRegisterClass))
    ensures OwnedBy(Types(MetricRegisterClass), MetricRegisterClass)
  {
    assert Lookup("metric_register") == Some(MetricRegisterClass);
  }

  lemma MetricUnregisterTypes()
    ensures DistinctTypes(Types(MetricUnregisterClass))
    ensures OwnedBy(Types(MetricUnregisterClass), MetricUnregisterClass)
  {
    assert Lookup("metric_unregister") == Some(MetricUnregisterClass);
  }

  lemma MetricCollectTypes()
    ensures DistinctTypes(Types(MetricCollectClass))
    ensures OwnedBy(Types(MetricCollectClass), MetricCollectClass)
  {
    assert Lookup("metric_collect") == Some(MetricCollectClass);
  }

  lemma MetricResponseTypes()
    ensures DistinctTypes(Types(MetricResponseClass))
    ensures OwnedBy(Types(MetricResponseClass), MetricResponseClass)
  {
    assert Lookup("metric_response") == Some(MetricResponseClass);
  }

  /** A discriminator is in `TypesOf(cs)` exactly when some class of `cs` declares it. */
  lemma {:induction false} TypesOfMeaning(cs: seq<EventClass>, t: string)
    ensures t in TypesOf(cs) <==> exists c :: c in cs && t in Types(c)
    decreases |cs|
  {
    if cs != [] {
      var init, last := cs[..|cs| - 1], cs[|cs| - 1];
      TypesOfMeaning(init, t);
      assert TypesOf(cs) == TypesOf(init) + Elems(Types(last));
      assert cs == init + [last];
      if t in TypesOf(init) {
        var c :| c in init && t in Types(c);
        assert c in cs;
      } else if t in Types(last) {
        assert last in cs;
      } else {
        forall c | c in cs
          ensures t !in Types(c)
        {
          if c != last {
            assert c in init;
          }
        }
      }
    }
  }

  lemma ClassRegistered(c: EventClass)
    requires c != GenericClass
    ensures c in AllClasses
  {
  }

  /** The generic class is never installed: it is the fallback for unregistered names. */
  lemma InstalledNotGeneric(m: map<string, EventClass>, t: string)
    requires Consistent(m, AllClasses) && t in m
    ensures m[t] != GenericClass
  {
    GenericNotListed();
  }

  lemma GenericNotListed()
    ensures GenericClass !in AllClasses
  {
  }

  lemma ClassesDistinct(i: nat)
    requires i < |AllClasses|
    ensures AllClasses[i] !in AllClasses[..i]
  {
  }

  /** After loading, every declared discriminator is installed under the class declaring it. */
  lemma RegisteredName(m: map<string, EventClass>, c: EventClass, t: string)
    requires Consistent(m, AllClasses) && c != GenericClass && t in Types(c)
    ensures t in m && m[t] == c
  {
    ClassRegistered(c);
    ClassTypes(c);
    TypesOfMeaning(AllClasses, t);
  }
}
