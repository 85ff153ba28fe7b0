/**
 * What the schema-based decoders of the event layer mean: each `init` agrees with a
 * direct reading of the argument positions (`Reference`), every decoded event is well
 * formed and keeps its discriminator, and encoding a well-formed event then decoding it
 * gives the event back.
 */
module EventProperties {
  import opened Wrappers
  import opened Values
  import opened ZodLite
  import opened ZodLiteProperties
  import opened Events

  predicate OptStrArg(v: Value) {
    v == Undefined || v.Str?
  }

  /** The states `init` can produce, i.e. the invariants the classes keep between fields. */
  predicate WellFormed(e: Event) {
    match e
    case Key(_, isHeld, isUp) => isUp ==> !isHeld
    case TaskComplete(_, success, error, params) => if success then error.None? else error.Some? && params == []
    case WebSocketConnect(handle, error) => error.Some? ==> handle == Undefined
    case Mouse(t, button, _, _, side) => if t == Touch then side.Some? && button == 0.0 else side.None?
    case Log(level, _, _, trace) => level in AllLevels && (trace == Undefined || trace.Arr?)
    case Metric(data) => data != Undefined && data != Null
    case MetricResponse(_, _, m) => m != Undefined && m != Null
    case Generic(args) => |args| > 0
    case _ => true
  }

  /** The decoding each class's schema describes, read directly off the argument positions. */
  function Reference(c: EventClass, args: seq<Value>): Result<Event, DecodeError> {
    match c
    case CharClass => RefChar(args)
    case KeyClass => RefKey(args)
    case PasteClass => RefPaste(args)
    case TimerClass => RefTimer(args)
    case TaskCompleteClass => RefTaskComplete(args)
    case RedstoneClass => RefRedstone(args)
    case TerminateClass => RefTerminate(args)
    case DiskClass => RefDisk(args)
    case PeripheralClass => RefPeripheral(args)
    case RednetMessageClass => RefRednetMessage(args)
    case ModemMessageClass => RefModemMessage(args)
    case HttpClass => RefHttp(args)
    case WebSocketMessageClass => RefWebSocketMessage(args)
    case WebSocketCloseClass => RefWebSocketClose(args)
    case WebSocketConnectClass => RefWebSocketConnect(args)
    case MouseClass => RefMouse(args)
    case ResizeClass => RefResize(args)
    case TurtleInventoryClass => RefTurtleInventory(args)
    case SpeakerAudioEmptyClass => RefSpeakerAudioEmpty(args)
    case ComputerCommandClass => RefComputerCommand(args)
    case LogClass => RefLog(args)
    case MetricClass => RefMetric(args)
    case MetricRegisterClass => RefMetricRegister(args)
    case MetricUnregisterClass => RefMetricUnregister(args)
    case MetricCollectClass => RefMetricCollect(args)
    case MetricResponseClass => RefMetricResponse(args)
    case GenericClass => RefGeneric(args)
  }

  function RefChar(args: seq<Value>): Result<Event, DecodeError> {
    var a0, a1 := At(args, 0), At(args, 1);
    if a0 == Str("char") && a1.Str? then Ok(Char(a1.s)) else Err(InvalidEventType)
  }

  function RefKey(args: seq<Value>): Result<Event, DecodeError> {
    var a0, a1, a2 := At(args, 0), At(args, 1), At(args, 2);
    if a0 == Str("key") && a1.Num? && (a2 == Undefined || a2.Bool?) then Ok(Event.Key(a1.n, a2 == Bool(true), false))
    else if a0 == Str("key_up") && a1.Num? then Ok(Event.Key(a1.n, false, true))
    else Err(InvalidEventType)
  }

  function RefPaste(args: seq<Value>): Result<Event, DecodeError> {
    var a0, a1 := At(args, 0), At(args, 1);
    if a0 == Str("paste") && a1.Str? then Ok(Paste(a1.s)) else Err(InvalidEventType)
  }

  function RefTimer(args: seq<Value>): Result<Event, DecodeError> {
    var a0, a1 := At(args, 0), At(args, 1);
    if (a0 == Str("timer") || a0 == Str("alarm")) && a1.Num? then Ok(Timer(a1.n, a0 == Str("alarm")))
    else Err(InvalidEventType)
  }

  function RefTaskComplete(args: seq<Value>): Result<Event, DecodeError> {
    var a0, a1, a2, a3 := At(args, 0), At(args, 1), At(args, 2), At(args, 3);
    if a0 == Str("task_complete") && a1.Num? && a2 == Bool(true) then Ok(TaskComplete(a1.n, true, None, Drop(args, 3)))
    else if a0 == Str("task_complete") && a1.Num? && a2 == Bool(false) && OptStrArg(a3) then
      Ok(TaskComplete(a1.n, false, Some(if a3.Str? then a3.s else ""), []))
    else Err(InvalidEventType)
  }

  function RefRedstone(args: seq<Value>): Result<Event, DecodeError> {
    var a0 := At(args, 0);
    if a0 == Str("redstone") then Ok(Redstone) else Err(InvalidEventType)
  }

  function RefTerminate(args: seq<Value>): Result<Event, DecodeError> {
    var a0 := At(args, 0);
    if a0 == Str("terminate") then Ok(Terminate) else Err(InvalidEventType)
  }

  function RefDisk(args: seq<Value>): Result<Event, DecodeError> {
    var a0, a1 := At(args, 0), At(args, 1);
    if (a0 == Str("disk") || a0 == Str("disk_eject")) && a1.Str? then Ok(Disk(a1.s, a0 == Str("disk_eject")))
    else Err(InvalidEventType)
  }

  function RefPeripheral(args: seq<Value>): Result<Event, DecodeError> {
    var a0, a1 := At(args, 0), At(args, 1);
    if (a0 == Str("peripheral") || a0 == Str("peripheral_detach")) && a1.Str? then
      Ok(Peripheral(a1.s, a0 == Str("peripheral_detach")))
    else Err(InvalidEventType)
  }

  function RefRednetMessage(args: seq<Value>): Result<Event, DecodeError> {
    var a0, a1, a2, a3 := At(args, 0), At(args, 1), At(args, 2), At(args, 3);
    if a0 == Str("rednet_message") && a1.Num? && OptStrArg(a3) then
      Ok(RednetMessage(a1.n, a2, if a3.Str? then Some(a3.s) else None))
    else Err(InvalidEventType)
  }

  function RefModemMessage(args: seq<Value>): Result<Event, DecodeError> {
    var a0, a1, a2, a3, a4, a5 := At(args, 0), At(args, 1), At(args, 2), At(args, 3), At(args, 4), At(args, 5);
    if a0 == Str("modem_message") && a1.Str? && a2.Num? && a3.Num? && a5.Num? then
      Ok(ModemMessage(a1.s, a2.n, a3.n, a4, a5.n))
    else Err(InvalidEventType)
  }

  function RefHttp(args: seq<Value>): Result<Event, DecodeError> {
    var a0, a1, a2, a3 := At(args, 0), At(args, 1), At(args, 2), At(args, 3);
    if a0 == Str("http_success") && a1.Str? then Ok(Http(a1.s, a2, None))
    else if a0 == Str("http_failure") && a1.Str? && OptStrArg(a2) then
      Ok(Http(a1.s, a3, Some(if a2.Str? then a2.s else "")))
    else Err(InvalidEventType)
  }

  function RefWebSocketMessage(args: seq<Value>): Result<Event, DecodeError> {
    var a0, a1, a2, a3 := At(args, 0), At(args, 1), At(args, 2), At(args, 3);
    if a0 == Str("websocket_message") && a1.Str? && a2.Str? && a3.Bool? then Ok(WebSocketMessage(a1.s, a2.s, a3.b))
    else Err(InvalidEventType)
  }

  function RefWebSocketClose(args: seq<Value>): Result<Event, DecodeError> {
    var a0, a1, a2, a3 := At(args, 0), At(args, 1), At(args, 2), At(args, 3);
    if a0 == Str("websocket_closed") && a1.Str? && OptStrArg(a2) && (a3 == Undefined || a3.Num?) then
      Ok(WebSocketClose(a1.s, if a2.Str? then Some(a2.s) else None, if a3.Num? then Some(a3.n) else None))
    else Err(InvalidEventType)
  }

  function RefWebSocketConnect(args: seq<Value>): Result<Event, DecodeError> {
    var a0, a1 := At(args, 0), At(args, 1);
    if a0 == Str("websocket_success") then Ok(WebSocketConnect(a1, None))
    else if a0 == Str("websocket_failure") && OptStrArg(a1) then
      Ok(WebSocketConnect(Undefined, Some(if a1.Str? then a1.s else "")))
    else Err(InvalidEventType)
  }

  function RefMouse(args: seq<Value>): Result<Event, DecodeError> {
    var a0, a1, a2, a3 := At(args, 0), At(args, 1), At(args, 2), At(args, 3);
    if a0 == Str("monitor_touch") && a1.Str? && a2.Num? && a3.Num? then Ok(Mouse(Touch, 0.0, a2.n, a3.n, Some(a1.s)))
    else if a0 in [Str("mouse_click"), Str("mouse_up"), Str("mouse_scroll"), Str("mouse_drag"), Str("mouse_move")]
            && a1.Num? && a2.Num? && a3.Num? then
      Ok(Mouse(MouseTypeOf(a0), a1.n, a2.n, a3.n, None))
    else Err(InvalidEventType)
  }

  function RefResize(args: seq<Value>): Result<Event, DecodeError> {
    var a0, a1 := At(args, 0), At(args, 1);
    if a0 == Str("term_resize") then Ok(Resize(None))
    else if a0 == Str("monitor_resize") && a1.Str? then Ok(Resize(Some(a1.s)))
    else Err(InvalidEventType)
  }

  function RefTurtleInventory(args: seq<Value>): Result<Event, DecodeError> {
    var a0 := At(args, 0);
    if a0 == Str("turtle_inventory") then Ok(TurtleInventory) else Err(InvalidEventType)
  }

  function RefSpeakerAudioEmpty(args: seq<Value>): Result<Event, DecodeError> {
    var a0, a1 := At(args, 0), At(args, 1);
    if a0 == Str("speaker_audio_empty") && a1.Str? then Ok(SpeakerAudioEmpty(a1.s)) else Err(InvalidEventType)
  }

  function RefComputerCommand(args: seq<Value>): Result<Event, DecodeError> {
    var a0 := At(args, 0);
    if a0 == Str("computer_command") then Ok(ComputerCommand(Drop(args, 1))) else Err(InvalidEventType)
  }

  function RefLog(args: seq<Value>): Result<Event, DecodeError> {
    var a0, a1, a2, a3, a4 := At(args, 0), At(args, 1), At(args, 2), At(args, 3), At(args, 4);
    if a0 == Str("log") && a1.Num? && a2.Str? && (a4 == Undefined || a4.Arr?) then
      var level :- FromLevel(a1.n);
      Ok(Log(level, a2.s, a3, a4))
    else Err(InvalidEventType)
  }

  function RefMetric(args: seq<Value>): Result<Event, DecodeError> {
    var a0, a1 := At(args, 0), At(args, 1);
    if a0 == Str("metric") then Ok(Metric(if a1 == Undefined || a1 == Null then EmptyMetricsData else a1))
    else Err(InvalidEventType)
  }

  function RefMetricRegister(args: seq<Value>): Result<Event, DecodeError> {
    var a0, a1 := At(args, 0), At(args, 1);
    if a0 == Str("metric_register") && a1.Str? then Ok(MetricRegister(a1.s)) else Err(InvalidEventType)
  }

  function RefMetricUnregister(args: seq<Value>): Result<Event, DecodeError> {
    var a0, a1 := At(args, 0), At(args, 1);
    if a0 == Str("metric_unregister") && a1.Str? then Ok(MetricUnregister(a1.s)) else Err(InvalidEventType)
  }

  function RefMetricCollect(args: seq<Value>): Result<Event, DecodeError> {
    var a0, a1, a2 := At(args, 0), At(args, 1), At(args, 2);
    if a0 == Str("metric_collect") && a1.Num? && a2.Num? then Ok(MetricCollect(a1.n, a2.n)) else Err(InvalidEventType)
  }

  function RefMetricResponse(args: seq<Value>): Result<Event, DecodeError> {
    var a0, a1, a2, a3 := At(args, 0), At(args, 1), At(args, 2), At(args, 3);
    if a0 == Str("metric_response") && a1.Num? && a2.Str? then
      Ok(MetricResponse(a1.n, a2.s, if a3 == Undefined || a3 == Null then Arr([]) else a3))
    else Err(InvalidEventType)
  }

  function RefGeneric(args: seq<Value>): Result<Event, DecodeError> {
    Ok(Generic(args))
  }

  /** Each event schema is plain: a tuple of plain schemas, or a union of such tuples. */
  lemma CharArgsPlain()
    ensures CharArgs.STuple? && PlainElems(CharArgs.elems)
  {
    TupleOk2(CharArgs.elems, []);
  }

  lemma PasteArgsPlain()
    ensures PasteArgs.STuple? && PlainElems(PasteArgs.elems)
  {
    TupleOk2(PasteArgs.elems, []);
  }

  lemma RedstoneArgsPlain()
    ensures RedstoneArgs.STuple? && PlainElems(RedstoneArgs.elems)
  {
    TupleOk1(RedstoneArgs.elems, []);
  }

  lemma TerminateArgsPlain()
    ensures TerminateArgs.STuple? && PlainElems(TerminateArgs.elems)
  {
    TupleOk1(TerminateArgs.elems, []);
  }

  lemma RednetMessageArgsPlain()
    ensures RednetMessageArgs.STuple? && PlainElems(RednetMessageArgs.elems)
  {
    TupleOk4(RednetMessageArgs.elems, []);
  }

  lemma ModemMessageArgsPlain()
    ensures ModemMessageArgs.STuple? && PlainElems(ModemMessageArgs.elems)
  {
    TupleOk6(ModemMessageArgs.elems, []);
  }

  lemma WebSocketMessageArgsPlain()
    ensures WebSocketMessageArgs.STuple? && PlainElems(WebSocketMessageArgs.elems)
  {
    TupleOk4(WebSocketMessageArgs.elems, []);
  }

  lemma WebSocketClosedArgsPlain()
    ensures WebSocketClosedArgs.STuple? && PlainElems(WebSocketClosedArgs.elems)
  {
    TupleOk4(WebSocketClosedArgs.elems, []);
  }

  lemma TurtleInventoryArgsPlain()
    ensures TurtleInventoryArgs.STuple? && PlainElems(TurtleInventoryArgs.elems)
  {
    TupleOk1(TurtleInventoryArgs.elems, []);
  }

  lemma SpeakerAudioEmptyArgsPlain()
    ensures SpeakerAudioEmptyArgs.STuple? && PlainElems(SpeakerAudioEmptyArgs.elems)
  {
    TupleOk2(SpeakerAudioEmptyArgs.elems, []);
  }

  lemma ComputerCommandArgsPlain()
    ensures ComputerCommandArgs.STuple? && PlainElems(ComputerCommandArgs.elems)
  {
    TupleOk1(ComputerCommandArgs.elems, []);
  }

  lemma LogArgsPlain()
    ensures LogArgs.STuple? && PlainElems(LogArgs.elems)
  {
    TupleOk5(LogArgs.elems, []);
  }

  lemma MetricArgsPlain()
    ensures MetricArgs.STuple? && PlainElems(MetricArgs.elems)
  {
    TupleOk2(MetricArgs.elems, []);
  }

  lemma MetricRegisterArgsPlain()
    ensures MetricRegisterArgs.STuple? && PlainElems(MetricRegisterArgs.elems)
  {
    TupleOk2(MetricRegisterArgs.elems, []);
  }

  lemma MetricUnregisterArgsPlain()
    ensures MetricUnregisterArgs.STuple? && PlainElems(MetricUnregisterArgs.elems)
  {
    TupleOk2(MetricUnregisterArgs.elems, []);
  }

  lemma MetricCollectArgsPlain()
    ensures MetricCollectArgs.STuple? && PlainElems(MetricCollectArgs.elems)
  {
    TupleOk3(MetricCollectArgs.elems, []);
  }

  lemma MetricResponseArgsPlain()
    ensures MetricResponseArgs.STuple? && PlainElems(MetricResponseArgs.elems)
  {
    TupleOk4(MetricResponseArgs.elems, []);
  }

  lemma KeyArgsPlain()
    ensures KeyArgs.SUnion? && PlainTuples(KeyArgs.options)
  {
    PlainTuples2(KeyArgs.options);
    TupleOk3(KeyArgs.options[0].elems, []);
    TupleOk2(KeyArgs.options[1].elems, []);
  }

  lemma TimerArgsPlain()
    ensures TimerArgs.SUnion? && PlainTuples(TimerArgs.options)
  {
    PlainTuples2(TimerArgs.options);
    TupleOk2(TimerArgs.options[0].elems, []);
    TupleOk2(TimerArgs.options[1].elems, []);
  }

  lemma TaskCompleteArgsPlain()
    ensures TaskCompleteArgs.SUnion? && PlainTuples(TaskCompleteArgs.options)
  {
    PlainTuples2(TaskCompleteArgs.options);
    TupleOk3(TaskCompleteArgs.options[0].elems, []);
    TupleOk4(TaskCompleteArgs.options[1].elems, []);
  }

  lemma DiskArgsPlain()
    ensures DiskArgs.SUnion? && PlainTuples(DiskArgs.options)
  {
    PlainTuples2(DiskArgs.options);
    TupleOk2(DiskArgs.options[0].elems, []);
    TupleOk2(DiskArgs.options[1].elems, []);
  }

  lemma PeripheralArgsPlain()
    ensures PeripheralArgs.SUnion? && PlainTuples(PeripheralArgs.options)
  {
    PlainTuples2(PeripheralArgs.options);
    TupleOk2(PeripheralArgs.options[0].elems, []);
    TupleOk2(PeripheralArgs.options[1].elems, []);
  }

  lemma HttpArgsPlain()
    ensures HttpArgs.SUnion? && PlainTuples(HttpArgs.options)
  {
    PlainTuples2(HttpArgs.options);
    TupleOk3(HttpArgs.options[0].elems, []);
    TupleOk4(HttpArgs.options[1].elems, []);
  }

  lemma WebSocketArgsPlain()
    ensures WebSocketArgs.SUnion? && PlainTuples(WebSocketArgs.options)
  {
    PlainTuples2(WebSocketArgs.options);
    TupleOk2(WebSocketArgs.options[0].elems, []);
    TupleOk2(WebSocketArgs.options[1].elems, []);
  }

  lemma ResizeArgsPlain()
    ensures ResizeArgs.SUnion? && PlainTuples(ResizeArgs.options)
  {
    PlainTuples2(ResizeArgs.options);
    TupleOk1(ResizeArgs.options[0].elems, []);
    TupleOk2(ResizeArgs.options[1].elems, []);
  }

  lemma MouseArgsPlain()
    ensures MouseArgs.SUnion? && PlainTuples(MouseArgs.options)
  {
    PlainTuples6(MouseArgs.options);
    TupleOk4(MouseArgs.options[0].elems, []);
    TupleOk4(MouseArgs.options[1].elems, []);
    TupleOk4(MouseArgs.options[2].elems, []);
    TupleOk4(MouseArgs.options[3].elems, []);
    TupleOk4(MouseArgs.options[4].elems, []);
    TupleOk4(MouseArgs.options[5].elems, []);
  }

  /** Each schema-based `init` decodes exactly as the direct reading does. */
  lemma InitIsReference(c: EventClass, args: seq<Value>)
    ensures Init(c, args) == Reference(c, args)
  {
    match c
    case CharClass => CharIsReference(args);
    case KeyClass => KeyIsReference(args);
    case PasteClass => PasteIsReference(args);
    case TimerClass => TimerIsReference(args);
    case TaskCompleteClass => TaskCompleteIsReference(args);
    case RedstoneClass => RedstoneIsReference(args);
    case TerminateClass => TerminateIsReference(args);
    case DiskClass => DiskIsReference(args);
    case PeripheralClass => PeripheralIsReference(args);
    case RednetMessageClass => RednetMessageIsReference(args);
    case ModemMessageClass => ModemMessageIsReference(args);
    case HttpClass => HttpIsReference(args);
    case WebSocketMessageClass => WebSocketMessageIsReference(args);
    case WebSocketCloseClass => WebSocketCloseIsReference(args);
    case WebSocketConnectClass => WebSocketConnectIsReference(args);
    case MouseClass => MouseIsReference(args);
    case ResizeClass => ResizeIsReference(args);
    case TurtleInventoryClass => TurtleInventoryIsReference(args);
    case SpeakerAudioEmptyClass => SpeakerAudioEmptyIsReference(args);
    case ComputerCommandClass => ComputerCommandIsReference(args);
    case LogClass => LogIsReference(args);
    case MetricClass => MetricIsReference(args);
    case MetricRegisterClass => MetricRegisterIsReference(args);
    case MetricUnregisterClass => MetricUnregisterIsReference(args);
    case MetricCollectClass => MetricCollectIsReference(args);
    case MetricResponseClass => MetricResponseIsReference(args);
    case GenericClass =>
  }

  lemma CharIsReference(args: seq<Value>)
    ensures InitChar(args) == RefChar(args)
  {
    CharArgsPlain();
    TupleOk2(CharArgs.elems, args);
    PlainTuple(CharArgs.elems, args);
    var v := Arr(Padded(args, 2));
    assert Field(v, 0) == At(args, 0) && Field(v, 1) == At(args, 1);
  }

  /** `key` carries an optional held flag; `key_up` has none. */
  lemma KeyIsReference(args: seq<Value>)
    ensures InitKey(args) == RefKey(args)
  {
    if At(args, 0) == Str("key") {
      KeyOption0(args);
    } else if At(args, 0) == Str("key_up") {
      KeyOption1(args);
    } else {
      KeyArgsPlain();
      PlainUnionNoneAt(KeyArgs.options, args, 0);
    }
  }

  lemma KeySchema0(args: seq<Value>)
    requires At(args, 0) == Str("key")
    ensures ParseEventArgs(args, KeyArgs) ==
              if At(args, 0) == Str("key") && At(args, 1).Num? && (At(args, 2) == Undefined || At(args, 2).Bool?) then Ok(Arr(Padded(args, 3)))
              else Err(InvalidEventType)
  {
    KeyArgsPlain();
    var o := KeyArgs.options;
    TupleOk3(o[0].elems, args);
    PlainUnionOnly(o, args, 0, 0);
  }

  lemma KeyOption0(args: seq<Value>)
    requires At(args, 0) == Str("key")
    ensures InitKey(args) == RefKey(args)
  {
    KeySchema0(args);
    var v := Arr(Padded(args, 3));
    assert Field(v, 0) == At(args, 0) && Field(v, 1) == At(args, 1) && Field(v, 2) == At(args, 2);
  }

  lemma KeySchema1(args: seq<Value>)
    requires At(args, 0) == Str("key_up")
    ensures ParseEventArgs(args, KeyArgs) ==
              if At(args, 0) == Str("key_up") && At(args, 1).Num? then Ok(Arr(Padded(args, 2)))
              else Err(InvalidEventType)
  {
    KeyArgsPlain();
    var o := KeyArgs.options;
    TupleOk2(o[1].elems, args);
    PlainUnionOnly(o, args, 1, 0);
  }

  lemma KeyOption1(args: seq<Value>)
    requires At(args, 0) == Str("key_up")
    ensures InitKey(args) == RefKey(args)
  {
    KeySchema1(args);
    var v := Arr(Padded(args, 2));
    assert Field(v, 0) == At(args, 0) && Field(v, 1) == At(args, 1);
  }

  lemma PasteIsReference(args: seq<Value>)
    ensures InitPaste(args) == RefPaste(args)
  {
    PasteArgsPlain();
    TupleOk2(PasteArgs.elems, args);
    PlainTuple(PasteArgs.elems, args);
    var v := Arr(Padded(args, 2));
    assert Field(v, 0) == At(args, 0) && Field(v, 1) == At(args, 1);
  }

  /** `timer` and `alarm` carry an id. */
  lemma TimerIsReference(args: seq<Value>)
    ensures InitTimer(args) == RefTimer(args)
  {
    if At(args, 0) == Str("timer") {
      TimerOption0(args);
    } else if At(args, 0) == Str("alarm") {
      TimerOption1(args);
    } else {
      TimerArgsPlain();
      PlainUnionNoneAt(TimerArgs.options, args, 0);
    }
  }

  lemma TimerSchema0(args: seq<Value>)
    requires At(args, 0) == Str("timer")
    ensures ParseEventArgs(args, TimerArgs) ==
              if At(args, 0) == Str("timer") && At(args, 1).Num? then Ok(Arr(Padded(args, 2)))
              else Err(InvalidEventType)
  {
    TimerArgsPlain();
    var o := TimerArgs.options;
    TupleOk2(o[0].elems, args);
    PlainUnionOnly(o, args, 0, 0);
  }

  lemma TimerOption0(args: seq<Value>)
    requires At(args, 0) == Str("timer")
    ensures InitTimer(args) == RefTimer(args)
  {
    TimerSchema0(args);
    var v := Arr(Padded(args, 2));
    assert Field(v, 0) == At(args, 0) && Field(v, 1) == At(args, 1);
  }

  lemma TimerSchema1(args: seq<Value>)
    requires At(args, 0) == Str("alarm")
    ensures ParseEventArgs(args, TimerArgs) ==
              if At(args, 0) == Str("alarm") && At(args, 1).Num? then Ok(Arr(Padded(args, 2)))
              else Err(InvalidEventType)
  {
    TimerArgsPlain();
    var o := TimerArgs.options;
    TupleOk2(o[1].elems, args);
    PlainUnionOnly(o, args, 1, 0);
  }

  lemma TimerOption1(args: seq<Value>)
    requires At(args, 0) == Str("alarm")
    ensures InitTimer(args) == RefTimer(args)
  {
    TimerSchema1(args);
    var v := Arr(Padded(args, 2));
    assert Field(v, 0) == At(args, 0) && Field(v, 1) == At(args, 1);
  }

  /** The success shape (`true` third) is tried before the failure shape (`false` third). */
  lemma TaskCompleteIsReference(args: seq<Value>)
    ensures InitTaskComplete(args) == RefTaskComplete(args)
  {
    if At(args, 0) == Str("task_complete") && At(args, 2) == Bool(true) {
      TaskCompleteOption0(args);
    } else if At(args, 0) == Str("task_complete") && At(args, 2) == Bool(false) {
      TaskCompleteOption1(args);
    } else {
      TaskCompleteArgsPlain();
      if At(args, 0) != Str("task_complete") {
        PlainUnionNoneAt(TaskCompleteArgs.options, args, 0);
      } else {
        PlainUnionNoneAt(TaskCompleteArgs.options, args, 2);
      }
    }
  }

  lemma TaskCompleteSchema0(args: seq<Value>)
    requires At(args, 0) == Str("task_complete") && At(args, 2) == Bool(true)
    ensures ParseEventArgs(args, TaskCompleteArgs) ==
              if At(args, 0) == Str("task_complete") && At(args, 1).Num? && At(args, 2) == Bool(true) then Ok(Arr(Padded(args, 3)))
              else Err(InvalidEventType)
  {
    TaskCompleteArgsPlain();
    var o := TaskCompleteArgs.options;
    TupleOk3(o[0].elems, args);
    PlainUnionOnly(o, args, 0, 2);
  }

  lemma TaskCompleteOption0(args: seq<Value>)
    requires At(args, 0) == Str("task_complete") && At(args, 2) == Bool(true)
    ensures InitTaskComplete(args) == RefTaskComplete(args)
  {
    TaskCompleteSchema0(args);
    var v := Arr(Padded(args, 3));
    assert Field(v, 0) == At(args, 0) && Field(v, 1) == At(args, 1) && Field(v, 2) == At(args, 2);
  }

  lemma TaskCompleteSchema1(args: seq<Value>)
    requires At(args, 0) == Str("task_complete") && At(args, 2) == Bool(false)
    ensures ParseEventArgs(args, TaskCompleteArgs) ==
              if At(args, 0) == Str("task_complete") && At(args, 1).Num? && At(args, 2) == Bool(false) && OptStrArg(At(args, 3)) then Ok(Arr(Padded(args, 4)))
              else Err(InvalidEventType)
  {
    TaskCompleteArgsPlain();
    var o := TaskCompleteArgs.options;
    TupleOk4(o[1].elems, args);
    PlainUnionOnly(o, args, 1, 2);
  }

  lemma TaskCompleteOption1(args: seq<Value>)
    requires At(args, 0) == Str("task_complete") && At(args, 2) == Bool(false)
    ensures InitTaskComplete(args) == RefTaskComplete(args)
  {
    TaskCompleteSchema1(args);
    var v := Arr(Padded(args, 4));
    assert Field(v, 0) == At(args, 0) && Field(v, 1) == At(args, 1) && Field(v, 2) == At(args, 2) && Field(v, 3) == At(args, 3);
  }

  lemma RedstoneIsReference(args: seq<Value>)
    ensures InitRedstone(args) == RefRedstone(args)
  {
    RedstoneArgsPlain();
    TupleOk1(RedstoneArgs.elems, args);
    PlainTuple(RedstoneArgs.elems, args);
    var v := Arr(Padded(args, 1));
    assert Field(v, 0) == At(args, 0);
  }

  lemma TerminateIsReference(args: seq<Value>)
    ensures InitTerminate(args) == RefTerminate(args)
  {
    TerminateArgsPlain();
    TupleOk1(TerminateArgs.elems, args);
    PlainTuple(TerminateArgs.elems, args);
    var v := Arr(Padded(args, 1));
    assert Field(v, 0) == At(args, 0);
  }

  /** `disk` and `disk_eject` carry a side. */
  lemma DiskIsReference(args: seq<Value>)
    ensures InitDisk(args) == RefDisk(args)
  {
    if At(args, 0) == Str("disk") {
      DiskOption0(args);
    } else if At(args, 0) == Str("disk_eject") {
      DiskOption1(args);
    } else {
      DiskArgsPlain();
      PlainUnionNoneAt(DiskArgs.options, args, 0);
    }
  }

  lemma DiskSchema0(args: seq<Value>)
    requires At(args, 0) == Str("disk")
    ensures ParseEventArgs(args, DiskArgs) ==
              if At(args, 0) == Str("disk") && At(args, 1).Str? then Ok(Arr(Padded(args, 2)))
              else Err(InvalidEventType)
  {
    DiskArgsPlain();
    var o := DiskArgs.options;
    TupleOk2(o[0].elems, args);
    PlainUnionOnly(o, args, 0, 0);
  }

  lemma DiskOption0(args: seq<Value>)
    requires At(args, 0) == Str("disk")
    ensures InitDisk(args) == RefDisk(args)
  {
    DiskSchema0(args);
    var v := Arr(Padded(args, 2));
    assert Field(v, 0) == At(args, 0) && Field(v, 1) == At(args, 1);
  }

  lemma DiskSchema1(args: seq<Value>)
    requires At(args, 0) == Str("disk_eject")
    ensures ParseEventArgs(args, DiskArgs) ==
              if At(args, 0) == Str("disk_eject") && At(args, 1).Str? then Ok(Arr(Padded(args, 2)))
              else Err(InvalidEventType)
  {
    DiskArgsPlain();
    var o := DiskArgs.options;
    TupleOk2(o[1].elems, args);
    PlainUnionOnly(o, args, 1, 0);
  }

  lemma DiskOption1(args: seq<Value>)
    requires At(args, 0) == Str("disk_eject")
    ensures InitDisk(args) == RefDisk(args)
  {
    DiskSchema1(args);
    var v := Arr(Padded(args, 2));
    assert Field(v, 0) == At(args, 0) && Field(v, 1) == At(args, 1);
  }

  /** `peripheral` and `peripheral_detach` carry a side. */
  lemma PeripheralIsReference(args: seq<Value>)
    ensures InitPeripheral(args) == RefPeripheral(args)
  {
    if At(args, 0) == Str("peripheral") {
      PeripheralOption0(args);
    } else if At(args, 0) == Str("peripheral_detach") {
      PeripheralOption1(args);
    } else {
      PeripheralArgsPlain();
      PlainUnionNoneAt(PeripheralArgs.options, args, 0);
    }
  }

  lemma PeripheralSchema0(args: seq<Value>)
    requires At(args, 0) == Str("peripheral")
    ensures ParseEventArgs(args, PeripheralArgs) ==
              if At(args, 0) == Str("peripheral") && At(args, 1).Str? then Ok(Arr(Padded(args, 2)))
              else Err(InvalidEventType)
  {
    PeripheralArgsPlain();
    var o := PeripheralArgs.options;
    TupleOk2(o[0].elems, args);
    PlainUnionOnly(o, args, 0, 0);
  }

  lemma PeripheralOption0(args: seq<Value>)
    requires At(args, 0) == Str("peripheral")
    ensures InitPeripheral(args) == RefPeripheral(args)
  {
    PeripheralSchema0(args);
    var v := Arr(Padded(args, 2));
    assert Field(v, 0) == At(args, 0) && Field(v, 1) == At(args, 1);
  }

  lemma PeripheralSchema1(args: seq<Value>)
    requires At(args, 0) == Str("peripheral_detach")
    ensures ParseEventArgs(args, PeripheralArgs) ==
              if At(args, 0) == Str("peripheral_detach") && At(args, 1).Str? then Ok(Arr(Padded(args, 2)))
              else Err(InvalidEventType)
  {
    PeripheralArgsPlain();
    var o := PeripheralArgs.options;
    TupleOk2(o[1].elems, args);
    PlainUnionOnly(o, args, 1, 0);
  }

  lemma PeripheralOption1(args: seq<Value>)
    requires At(args, 0) == Str("peripheral_detach")
    ensures InitPeripheral(args) == RefPeripheral(args)
  {
    PeripheralSchema1(args);
    var v := Arr(Padded(args, 2));
    assert Field(v, 0) == At(args, 0) && Field(v, 1) == At(args, 1);
  }

  lemma RednetMessageIsReference(args: seq<Value>)
    ensures InitRednetMessage(args) == RefRednetMessage(args)
  {
    RednetMessageArgsPlain();
    TupleOk4(RednetMessageArgs.elems, args);
    PlainTuple(RednetMessageArgs.elems, args);
    var v := Arr(Padded(args, 4));
    assert Field(v, 0) == At(args, 0) && Field(v, 1) == At(args, 1) && Field(v, 2) == At(args, 2) && Field(v, 3) == At(args, 3);
  }

  lemma ModemMessageIsReference(args: seq<Value>)
    ensures InitModemMessage(args) == RefModemMessage(args)
  {
    ModemMessageArgsPlain();
    TupleOk6(ModemMessageArgs.elems, args);
    PlainTuple(ModemMessageArgs.elems, args);
    var v := Arr(Padded(args, 6));
    assert Field(v, 0) == At(args, 0) && Field(v, 1) == At(args, 1) && Field(v, 2) == At(args, 2) && Field(v, 3) == At(args, 3) && Field(v, 4) == At(args, 4) && Field(v, 5) == At(args, 5);
  }

  /** `http_success` carries a handle; `http_failure` an optional error and an optional handle. */
  lemma HttpIsReference(args: seq<Value>)
    ensures InitHttp(args) == RefHttp(args)
  {
    if At(args, 0) == Str("http_success") {
      HttpOption0(args);
    } else if At(args, 0) == Str("http_failure") {
      HttpOption1(args);
    } else {
      HttpArgsPlain();
      PlainUnionNoneAt(HttpArgs.options, args, 0);
    }
  }

  lemma HttpSchema0(args: seq<Value>)
    requires At(args, 0) == Str("http_success")
    ensures ParseEventArgs(args, HttpArgs) ==
              if At(args, 0) == Str("http_success") && At(args, 1).Str? then Ok(Arr(Padded(args, 3)))
              else Err(InvalidEventType)
  {
    HttpArgsPlain();
    var o := HttpArgs.options;
    TupleOk3(o[0].elems, args);
    PlainUnionOnly(o, args, 0, 0);
  }

  lemma HttpOption0(args: seq<Value>)
    requires At(args, 0) == Str("http_success")
    ensures InitHttp(args) == RefHttp(args)
  {
    HttpSchema0(args);
    var v := Arr(Padded(args, 3));
    assert Field(v, 0) == At(args, 0) && Field(v, 1) == At(args, 1) && Field(v, 2) == At(args, 2);
  }

  lemma HttpSchema1(args: seq<Value>)
    requires At(args, 0) == Str("http_failure")
    ensures ParseEventArgs(args, HttpArgs) ==
              if At(args, 0) == Str("http_failure") && At(args, 1).Str? && OptStrArg(At(args, 2)) then Ok(Arr(Padded(args, 4)))
              else Err(InvalidEventType)
  {
    HttpArgsPlain();
    var o := HttpArgs.options;
    TupleOk4(o[1].elems, args);
    PlainUnionOnly(o, args, 1, 0);
  }

  lemma HttpOption1(args: seq<Value>)
    requires At(args, 0) == Str("http_failure")
    ensures InitHttp(args) == RefHttp(args)
  {
    HttpSchema1(args);
    var v := Arr(Padded(args, 4));
    assert Field(v, 0) == At(args, 0) && Field(v, 1) == At(args, 1) && Field(v, 2) == At(args, 2) && Field(v, 3) == At(args, 3);
  }

  lemma WebSocketMessageIsReference(args: seq<Value>)
    ensures InitWebSocketMessage(args) == RefWebSocketMessage(args)
  {
    WebSocketMessageArgsPlain();
    TupleOk4(WebSocketMessageArgs.elems, args);
    PlainTuple(WebSocketMessageArgs.elems, args);
    var v := Arr(Padded(args, 4));
    assert Field(v, 0) == At(args, 0) && Field(v, 1) == At(args, 1) && Field(v, 2) == At(args, 2) && Field(v, 3) == At(args, 3);
  }

  lemma WebSocketCloseIsReference(args: seq<Value>)
    ensures InitWebSocketClose(args) == RefWebSocketClose(args)
  {
    WebSocketClosedArgsPlain();
    TupleOk4(WebSocketClosedArgs.elems, args);
    PlainTuple(WebSocketClosedArgs.elems, args);
    var v := Arr(Padded(args, 4));
    assert Field(v, 0) == At(args, 0) && Field(v, 1) == At(args, 1) && Field(v, 2) == At(args, 2) && Field(v, 3) == At(args, 3);
  }

  /** `websocket_success` carries a handle; `websocket_failure` an optional error. */
  lemma WebSocketConnectIsReference(args: seq<Value>)
    ensures InitWebSocketConnect(args) == RefWebSocketConnect(args)
  {
    if At(args, 0) == Str("websocket_success") {
      WebSocketConnectOption0(args);
    } else if At(args, 0) == Str("websocket_failure") {
      WebSocketConnectOption1(args);
    } else {
      WebSocketArgsPlain();
      PlainUnionNoneAt(WebSocketArgs.options, args, 0);
    }
  }

  lemma WebSocketConnectSchema0(args: seq<Value>)
    requires At(args, 0) == Str("websocket_success")
    ensures ParseEventArgs(args, WebSocketArgs) ==
              if At(args, 0) == Str("websocket_success") then Ok(Arr(Padded(args, 2)))
              else Err(InvalidEventType)
  {
    WebSocketArgsPlain();
    var o := WebSocketArgs.options;
    TupleOk2(o[0].elems, args);
    PlainUnionOnly(o, args, 0, 0);
  }

  lemma WebSocketConnectOption0(args: seq<Value>)
    requires At(args, 0) == Str("websocket_success")
    ensures InitWebSocketConnect(args) == RefWebSocketConnect(args)
  {
    WebSocketConnectSchema0(args);
    var v := Arr(Padded(args, 2));
    assert Field(v, 0) == At(args, 0) && Field(v, 1) == At(args, 1);
  }

  lemma WebSocketConnectSchema1(args: seq<Value>)
    requires At(args, 0) == Str("websocket_failure")
    ensures ParseEventArgs(args, WebSocketArgs) ==
              if At(args, 0) == Str("websocket_failure") && OptStrArg(At(args, 1)) then Ok(Arr(Padded(args, 2)))
              else Err(InvalidEventType)
  {
    WebSocketArgsPlain();
    var o := WebSocketArgs.options;
    TupleOk2(o[1].elems, args);
    PlainUnionOnly(o, args, 1, 0);
  }

  lemma WebSocketConnectOption1(args: seq<Value>)
    requires At(args, 0) == Str("websocket_failure")
    ensures InitWebSocketConnect(args) == RefWebSocketConnect(args)
  {
    WebSocketConnectSchema1(args);
    var v := Arr(Padded(args, 2));
    assert Field(v, 0) == At(args, 0) && Field(v, 1) == At(args, 1);
  }

  /** Six shapes, one per discriminator; only `monitor_touch` carries a side first. */
  lemma MouseIsReference(args: seq<Value>)
    ensures InitMouse(args) == RefMouse(args)
  {
    if At(args, 0) == Str("mouse_click") {
      MouseOption0(args);
    } else if At(args, 0) == Str("mouse_up") {
      MouseOption1(args);
    } else if At(args, 0) == Str("mouse_scroll") {
      MouseOption2(args);
    } else if At(args, 0) == Str("mouse_drag") {
      MouseOption3(args);
    } else if At(args, 0) == Str("monitor_touch") {
      MouseOption4(args);
    } else if At(args, 0) == Str("mouse_move") {
      MouseOption5(args);
    } else {
      MouseArgsPlain();
      PlainUnionNoneAt(MouseArgs.options, args, 0);
    }
  }

  lemma MouseSchema0(args: seq<Value>)
    requires At(args, 0) == Str("mouse_click")
    ensures ParseEventArgs(args, MouseArgs) ==
              if At(args, 0) == Str("mouse_click") && At(args, 1).Num? && At(args, 2).Num? && At(args, 3).Num? then Ok(Arr(Padded(args, 4)))
              else Err(InvalidEventType)
  {
    MouseArgsPlain();
    var o := MouseArgs.options;
    TupleOk4(o[0].elems, args);
    PlainUnionOnly(o, args, 0, 0);
  }

  lemma MouseOption0(args: seq<Value>)
    requires At(args, 0) == Str("mouse_click")
    ensures InitMouse(args) == RefMouse(args)
  {
    MouseSchema0(args);
    var v := Arr(Padded(args, 4));
    assert Field(v, 0) == At(args, 0) && Field(v, 1) == At(args, 1) && Field(v, 2) == At(args, 2) && Field(v, 3) == At(args, 3);
  }

  lemma MouseSchema1(args: seq<Value>)
    requires At(args, 0) == Str("mouse_up")
    ensures ParseEventArgs(args, MouseArgs) ==
              if At(args, 0) == Str("mouse_up") && At(args, 1).Num? && At(args, 2).Num? && At(args, 3).Num? then Ok(Arr(Padded(args, 4)))
              else Err(InvalidEventType)
  {
    MouseArgsPlain();
    var o := MouseArgs.options;
    TupleOk4(o[1].elems, args);
    PlainUnionOnly(o, args, 1, 0);
  }

  lemma MouseOption1(args: seq<Value>)
    requires At(args, 0) == Str("mouse_up")
    ensures InitMouse(args) == RefMouse(args)
  {
    MouseSchema1(args);
    var v := Arr(Padded(args, 4));
    assert Field(v, 0) == At(args, 0) && Field(v, 1) == At(args, 1) && Field(v, 2) == At(args, 2) && Field(v, 3) == At(args, 3);
  }

  lemma MouseSchema2(args: seq<Value>)
    requires At(args, 0) == Str("mouse_scroll")
    ensures ParseEventArgs(args, MouseArgs) ==
              if At(args, 0) == Str("mouse_scroll") && At(args, 1).Num? && At(args, 2).Num? && At(args, 3).Num? then Ok(Arr(Padded(args, 4)))
              else Err(InvalidEventType)
  {
    MouseArgsPlain();
    var o := MouseArgs.options;
    TupleOk4(o[2].elems, args);
    PlainUnionOnly(o, args, 2, 0);
  }

  lemma MouseOption2(args: seq<Value>)
    requires At(args, 0) == Str("mouse_scroll")
    ensures InitMouse(args) == RefMouse(args)
  {
    MouseSchema2(args);
    var v := Arr(Padded(args, 4));
    assert Field(v, 0) == At(args, 0) && Field(v, 1) == At(args, 1) && Field(v, 2) == At(args, 2) && Field(v, 3) == At(args, 3);
  }

  lemma MouseSchema3(args: seq<Value>)
    requires At(args, 0) == Str("mouse_drag")
    ensures ParseEventArgs(args, MouseArgs) ==
              if At(args, 0) == Str("mouse_drag") && At(args, 1).Num? && At(args, 2).Num? && At(args, 3).Num? then Ok(Arr(Padded(args, 4)))
              else Err(InvalidEventType)
  {
    MouseArgsPlain();
    var o := MouseArgs.options;
    TupleOk4(o[3].elems, args);
    PlainUnionOnly(o, args, 3, 0);
  }

  lemma MouseOption3(args: seq<Value>)
    requires At(args, 0) == Str("mouse_drag")
    ensures InitMouse(args) == RefMouse(args)
  {
    MouseSchema3(args);
    var v := Arr(Padded(args, 4));
    assert Field(v, 0) == At(args, 0) && Field(v, 1) == At(args, 1) && Field(v, 2) == At(args, 2) && Field(v, 3) == At(args, 3);
  }

  lemma MouseSchema4(args: seq<Value>)
    requires At(args, 0) == Str("monitor_touch")
    ensures ParseEventArgs(args, MouseArgs) ==
              if At(args, 0) == Str("monitor_touch") && At(args, 1).Str? && At(args, 2).Num? && At(args, 3).Num? then Ok(Arr(Padded(args, 4)))
              else Err(InvalidEventType)
  {
    MouseArgsPlain();
    var o := MouseArgs.options;
    TupleOk4(o[4].elems, args);
    PlainUnionOnly(o, args, 4, 0);
  }

  lemma MouseOption4(args: seq<Value>)
    requires At(args, 0) == Str("monitor_touch")
    ensures InitMouse(args) == RefMouse(args)
  {
    MouseSchema4(args);
    var v := Arr(Padded(args, 4));
    assert Field(v, 0) == At(args, 0) && Field(v, 1) == At(args, 1) && Field(v, 2) == At(args, 2) && Field(v, 3) == At(args, 3);
  }

  lemma MouseSchema5(args: seq<Value>)
    requires At(args, 0) == Str("mouse_move")
    ensures ParseEventArgs(args, MouseArgs) ==
              if At(args, 0) == Str("mouse_move") && At(args, 1).Num? && At(args, 2).Num? && At(args, 3).Num? then Ok(Arr(Padded(args, 4)))
              else Err(InvalidEventType)
  {
    MouseArgsPlain();
    var o := MouseArgs.options;
    TupleOk4(o[5].elems, args);
    PlainUnionOnly(o, args, 5, 0);
  }

  lemma MouseOption5(args: seq<Value>)
    requires At(args, 0) == Str("mouse_move")
    ensures InitMouse(args) == RefMouse(args)
  {
    MouseSchema5(args);
    var v := Arr(Padded(args, 4));
    assert Field(v, 0) == At(args, 0) && Field(v, 1) == At(args, 1) && Field(v, 2) == At(args, 2) && Field(v, 3) == At(args, 3);
  }

  /** `term_resize` has no argument; `monitor_resize` carries a side. */
  lemma ResizeIsReference(args: seq<Value>)
    ensures InitResize(args) == RefResize(args)
  {
    if At(args, 0) == Str("term_resize") {
      ResizeOption0(args);
    } else if At(args, 0) == Str("monitor_resize") {
      ResizeOption1(args);
    } else {
      ResizeArgsPlain();
      PlainUnionNoneAt(ResizeArgs.options, args, 0);
    }
  }

  lemma ResizeSchema0(args: seq<Value>)
    requires At(args, 0) == Str("term_resize")
    ensures ParseEventArgs(args, ResizeArgs) ==
              if At(args, 0) == Str("term_resize") then Ok(Arr(Padded(args, 1)))
              else Err(InvalidEventType)
  {
    ResizeArgsPlain();
    var o := ResizeArgs.options;
    TupleOk1(o[0].elems, args);
    PlainUnionOnly(o, args, 0, 0);
  }

  lemma ResizeOption0(args: seq<Value>)
    requires At(args, 0) == Str("term_resize")
    ensures InitResize(args) == RefResize(args)
  {
    ResizeSchema0(args);
    var v := Arr(Padded(args, 1));
    assert Field(v, 0) == At(args, 0);
  }

  lemma ResizeSchema1(args: seq<Value>)
    requires At(args, 0) == Str("monitor_resize")
    ensures ParseEventArgs(args, ResizeArgs) ==
              if At(args, 0) == Str("monitor_resize") && At(args, 1).Str? then Ok(Arr(Padded(args, 2)))
              else Err(InvalidEventType)
  {
    ResizeArgsPlain();
    var o := ResizeArgs.options;
    TupleOk2(o[1].elems, args);
    PlainUnionOnly(o, args, 1, 0);
  }

  lemma ResizeOption1(args: seq<Value>)
    requires At(args, 0) == Str("monitor_resize")
    ensures InitResize(args) == RefResize(args)
  {
    ResizeSchema1(args);
    var v := Arr(Padded(args, 2));
    assert Field(v, 0) == At(args, 0) && Field(v, 1) == At(args, 1);
  }

  lemma TurtleInventoryIsReference(args: seq<Value>)
    ensures InitTurtleInventory(args) == RefTurtleInventory(args)
  {
    TurtleInventoryArgsPlain();
    TupleOk1(TurtleInventoryArgs.elems, args);
    PlainTuple(TurtleInventoryArgs.elems, args);
    var v := Arr(Padded(args, 1));
    assert Field(v, 0) == At(args, 0);
  }

  lemma SpeakerAudioEmptyIsReference(args: seq<Value>)
    ensures InitSpeakerAudioEmpty(args) == RefSpeakerAudioEmpty(args)
  {
    SpeakerAudioEmptyArgsPlain();
    TupleOk2(SpeakerAudioEmptyArgs.elems, args);
    PlainTuple(SpeakerAudioEmptyArgs.elems, args);
    var v := Arr(Padded(args, 2));
    assert Field(v, 0) == At(args, 0) && Field(v, 1) == At(args, 1);
  }

  lemma ComputerCommandIsReference(args: seq<Value>)
    ensures InitComputerCommand(args) == RefComputerCommand(args)
  {
    ComputerCommandArgsPlain();
    TupleOk1(ComputerCommandArgs.elems, args);
    PlainTuple(ComputerCommandArgs.elems, args);
    var v := Arr(Padded(args, 1));
    assert Field(v, 0) == At(args, 0);
  }

  lemma LogIsReference(args: seq<Value>)
    ensures InitLog(args) == RefLog(args)
  {
    LogArgsPlain();
    TupleOk5(LogArgs.elems, args);
    PlainTuple(LogArgs.elems, args);
    var v := Arr(Padded(args, 5));
    assert Field(v, 0) == At(args, 0) && Field(v, 1) == At(args, 1) && Field(v, 2) == At(args, 2) && Field(v, 3) == At(args, 3) && Field(v, 4) == At(args, 4);
    var t := At(args, 4);
    if t.Arr? {
      assert forall j :: 0 <= j < |t.items| ==> Admits(SUnknown, t.items[j]);
    }
  }

  lemma MetricIsReference(args: seq<Value>)
    ensures InitMetric(args) == RefMetric(args)
  {
    MetricArgsPlain();
    TupleOk2(MetricArgs.elems, args);
    PlainTuple(MetricArgs.elems, args);
    var v := Arr(Padded(args, 2));
    assert Field(v, 0) == At(args, 0) && Field(v, 1) == At(args, 1);
  }

  lemma MetricRegisterIsReference(args: seq<Value>)
    ensures InitMetricRegister(args) == RefMetricRegister(args)
  {
    MetricRegisterArgsPlain();
    TupleOk2(MetricRegisterArgs.elems, args);
    PlainTuple(MetricRegisterArgs.elems, args);
    var v := Arr(Padded(args, 2));
    assert Field(v, 0) == At(args, 0) && Field(v, 1) == At(args, 1);
  }

  lemma MetricUnregisterIsReference(args: seq<Value>)
    ensures InitMetricUnregister(args) == RefMetricUnregister(args)
  {
    MetricUnregisterArgsPlain();
    TupleOk2(MetricUnregisterArgs.elems, args);
    PlainTuple(MetricUnregisterArgs.elems, args);
    var v := Arr(Padded(args, 2));
    assert Field(v, 0) == At(args, 0) && Field(v, 1) == At(args, 1);
  }

  lemma MetricCollectIsReference(args: seq<Value>)
    ensures InitMetricCollect(args) == RefMetricCollect(args)
  {
    MetricCollectArgsPlain();
    TupleOk3(MetricCollectArgs.elems, args);
    PlainTuple(MetricCollectArgs.elems, args);
    var v := Arr(Padded(args, 3));
    assert Field(v, 0) == At(args, 0) && Field(v, 1) == At(args, 1) && Field(v, 2) == At(args, 2);
  }

  lemma MetricResponseIsReference(args: seq<Value>)
    ensures InitMetricResponse(args) == RefMetricResponse(args)
  {
    MetricResponseArgsPlain();
    TupleOk4(MetricResponseArgs.elems, args);
    PlainTuple(MetricResponseArgs.elems, args);
    var v := Arr(Padded(args, 4));
    assert Field(v, 0) == At(args, 0) && Field(v, 1) == At(args, 1) && Field(v, 2) == At(args, 2) && Field(v, 3) == At(args, 3);
  }
}
