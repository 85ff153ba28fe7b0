/**
 * The typed events of the event layer (cc-tstl/src/api/event.ts): one variant per
 * event class, the class's discriminators (`TYPES`), its argument schema, its decoder
 * (`init`, which validates the whole tuple with the schema and throws "Invalid event
 * type" when validation fails) and its encoder (`get_name` / `get_args`).
 */
module Events {
  import opened Wrappers
  import opened Values
  import opened ZodLite

  datatype MouseType = Click | Up | Scroll | Drag | Touch | Move

  /** A log level: its number and its name. */
  datatype LogLevel = LogLevel(level: int, name: string)

  const TRACE := LogLevel(0, "TRACE")
  const DEBUG := LogLevel(1, "DEBUG")
  const INFO := LogLevel(2, "INFO")
  const WARNING := LogLevel(3, "WARNING")
  const ERROR := LogLevel(4, "ERROR")
  const CRITICAL := LogLevel(5, "CRITICAL")

  /** `LogLevel.LEVELS`, the table `fromLevel` indexes: it starts at DEBUG and stops at ERROR. */
  const LEVELS: seq<LogLevel> := [DEBUG, INFO, WARNING, ERROR]

  /** All six levels, each at the position of its own number. */
  const AllLevels: seq<LogLevel> := [TRACE, DEBUG, INFO, WARNING, ERROR, CRITICAL]

  datatype Event =
    | Char(character: string)
    | Key(key: real, isHeld: bool, isUp: bool)
    | Paste(text: string)
    | Timer(id: real, isAlarm: bool)
    | TaskComplete(id: real, success: bool, error: Option<string>, params: seq<Value>)
    | Redstone
    | Terminate
    | Disk(side: string, eject: bool)
    | Peripheral(side: string, detach: bool)
    | RednetMessage(sender: real, message: Value, protocol: Option<string>)
    | ModemMessage(side: string, channel: real, replyChannel: real, message: Value, distance: real)
    | Http(url: string, handle: Value, error: Option<string>)
    | WebSocketMessage(url: string, content: string, isBinary: bool)
    | WebSocketClose(url: string, reason: Option<string>, code: Option<real>)
    | WebSocketConnect(handle: Value, error: Option<string>)
    | Mouse(mouseType: MouseType, button: real, x: real, y: real, touchSide: Option<string>)
    | Resize(monitorSide: Option<string>)
    | TurtleInventory
    | SpeakerAudioEmpty(side: string)
    | ComputerCommand(args: seq<Value>)
    | Log(level: LogLevel, text: string, info: Value, trace: Value)
    | Metric(data: Value)
    | MetricRegister(publisherId: string)
    | MetricUnregister(publisherId: string)
    | MetricCollect(requestId: real, collectionTimeUnixNano: real)
    | MetricResponse(requestId: real, publisherId: string, resourceMetrics: Value)
    | Generic(args: seq<Value>)

  /** The classes of the event layer; `instanceof` is a comparison of classes. */
  datatype EventClass =
    | CharClass | KeyClass | PasteClass | TimerClass | TaskCompleteClass | RedstoneClass
    | TerminateClass | DiskClass | PeripheralClass | RednetMessageClass | ModemMessageClass
    | HttpClass | WebSocketMessageClass | WebSocketCloseClass | WebSocketConnectClass
    | MouseClass | ResizeClass | TurtleInventoryClass | SpeakerAudioEmptyClass
    | ComputerCommandClass | LogClass | MetricClass | MetricRegisterClass
    | MetricUnregisterClass | MetricCollectClass | MetricResponseClass | GenericClass

  datatype DecodeError = InvalidEventType | InvalidLogLevel(level: real)

  function ClassOf(e: Event): EventClass {
    match e
    case Char(_) => CharClass
    case Key(_, _, _) => KeyClass
    case Paste(_) => PasteClass
    case Timer(_, _) => TimerClass
    case TaskComplete(_, _, _, _) => TaskCompleteClass
    case Redstone => RedstoneClass
    case Terminate => TerminateClass
    case Disk(_, _) => DiskClass
    case Peripheral(_, _) => PeripheralClass
    case RednetMessage(_, _, _) => RednetMessageClass
    case ModemMessage(_, _, _, _, _) => ModemMessageClass
    case Http(_, _, _) => HttpClass
    case WebSocketMessage(_, _, _) => WebSocketMessageClass
    case WebSocketClose(_, _, _) => WebSocketCloseClass
    case WebSocketConnect(_, _) => WebSocketConnectClass
    case Mouse(_, _, _, _, _) => MouseClass
    case Resize(_) => ResizeClass
    case TurtleInventory => TurtleInventoryClass
    case SpeakerAudioEmpty(_) => SpeakerAudioEmptyClass
    case ComputerCommand(_) => ComputerCommandClass
    case Log(_, _, _, _) => LogClass
    case Metric(_) => MetricClass
    case MetricRegister(_) => MetricRegisterClass
    case MetricUnregister(_) => MetricUnregisterClass
    case MetricCollect(_, _) => MetricCollectClass
    case MetricResponse(_, _, _) => MetricResponseClass
    case Generic(_) => GenericClass
  }

  /** The static `TYPES` of each class: the discriminators it claims. */
  function Types(c: EventClass): seq<string> {
    match c
    case CharClass => ["char"]
    case KeyClass => ["key", "key_up"]
    case PasteClass => ["paste"]
    case TimerClass => ["timer", "alarm"]
    case TaskCompleteClass => ["task_complete"]
    case RedstoneClass => ["redstone"]
    case TerminateClass => ["terminate"]
    case DiskClass => ["disk", "disk_eject"]
    case PeripheralClass => ["peripheral", "peripheral_detach"]
    case RednetMessageClass => ["rednet_message"]
    case ModemMessageClass => ["modem_message"]
    case HttpClass => ["http_success", "http_failure"]
    case WebSocketMessageClass => ["websocket_message"]
    case WebSocketCloseClass => ["websocket_closed"]
    case WebSocketConnectClass => ["websocket_success", "websocket_failure"]
    case MouseClass => ["mouse_click", "mouse_up", "mouse_scroll", "mouse_drag", "monitor_touch", "mouse_move"]
    case ResizeClass => ["term_resize", "monitor_resize"]
    case TurtleInventoryClass => ["turtle_inventory"]
    case SpeakerAudioEmptyClass => ["speaker_audio_empty"]
    case ComputerCommandClass => ["computer_command"]
    case LogClass => ["log"]
    case MetricClass => ["metric"]
    case MetricRegisterClass => ["metric_register"]
    case MetricUnregisterClass => ["metric_unregister"]
    case MetricCollectClass => ["metric_collect"]
    case MetricResponseClass => ["metric_response"]
    case GenericClass => []
  }

  // ---------------------------------------------------------------- schemas

  function Tag(name: string): Schema {
    SLiteral(LStr(name))
  }

  const CharArgs := STuple([Tag("char"), SString])
  const KeyArgs := SUnion([STuple([Tag("key"), SNumber, SOptional(SBoolean)]), STuple([Tag("key_up"), SNumber])])
  const PasteArgs := STuple([Tag("paste"), SString])
  const TimerArgs := SUnion([STuple([Tag("timer"), SNumber]), STuple([Tag("alarm"), SNumber])])
  const TaskCompleteSuccessArgs := STuple([Tag("task_complete"), SNumber, SLiteral(LBool(true))])
  const TaskCompleteFailureArgs := STuple([Tag("task_complete"), SNumber, SLiteral(LBool(false)), SOptional(SString)])
  const TaskCompleteArgs := SUnion([TaskCompleteSuccessArgs, TaskCompleteFailureArgs])
  const RedstoneArgs := STuple([Tag("redstone")])
  const TerminateArgs := STuple([Tag("terminate")])
  const DiskArgs := SUnion([STuple([Tag("disk"), SString]), STuple([Tag("disk_eject"), SString])])
  const PeripheralArgs := SUnion([STuple([Tag("peripheral"), SString]), STuple([Tag("peripheral_detach"), SString])])
  const RednetMessageArgs := STuple([Tag("rednet_message"), SNumber, SUnknown, SOptional(SString)])
  const ModemMessageArgs := STuple([Tag("modem_message"), SString, SNumber, SNumber, SUnknown, SNumber])
  const HttpSuccessArgs := STuple([Tag("http_success"), SString, SUnknown])
  const HttpFailureArgs := STuple([Tag("http_failure"), SString, SOptional(SString), SOptional(SUnknown)])
  const HttpArgs := SUnion([HttpSuccessArgs, HttpFailureArgs])
  const WebSocketMessageArgs := STuple([Tag("websocket_message"), SString, SString, SBoolean])
  const WebSocketClosedArgs := STuple([Tag("websocket_closed"), SString, SOptional(SString), SOptional(SNumber)])
  const WebSocketArgs :=
    SUnion([STuple([Tag("websocket_success"), SUnknown]), STuple([Tag("websocket_failure"), SOptional(SString)])])
  const MouseArgs := SUnion([
    STuple([Tag("mouse_click"), SNumber, SNumber, SNumber]),
    STuple([Tag("mouse_up"), SNumber, SNumber, SNumber]),
    STuple([Tag("mouse_scroll"), SNumber, SNumber, SNumber]),
    STuple([Tag("mouse_drag"), SNumber, SNumber, SNumber]),
    STuple([Tag("monitor_touch"), SString, SNumber, SNumber]),
    STuple([Tag("mouse_move"), SNumber, SNumber, SNumber])])
  const ResizeArgs := SUnion([STuple([Tag("term_resize")]), STuple([Tag("monitor_resize"), SString])])
  const TurtleInventoryArgs := STuple([Tag("turtle_inventory")])
  const SpeakerAudioEmptyArgs := STuple([Tag("speaker_audio_empty"), SString])
  const ComputerCommandArgs := STuple([Tag("computer_command")])
  const LogArgs := STuple([Tag("log"), SNumber, SString, SOptional(SUnknown), SOptional(SArray(SUnknown))])
  const MetricArgs := STuple([Tag("metric"), SOptional(SUnknown)])
  const MetricRegisterArgs := STuple([Tag("metric_register"), SString])
  const MetricUnregisterArgs := STuple([Tag("metric_unregister"), SString])
  const MetricCollectArgs := STuple([Tag("metric_collect"), SNumber, SNumber])
  const MetricResponseArgs := STuple([Tag("metric_response"), SNumber, SString, SOptional(SUnknown)])

  // ---------------------------------------------------------------- decoding

  /** `parseEventArgs`: validate the whole tuple, or throw "Invalid event type". */
  function ParseEventArgs(args: seq<Value>, schema: Schema): Result<Value, DecodeError> {
    match SafeParse(schema, Arr(args))
    case Success(v) => Ok(v)
    case Failure(_) => Err(InvalidEventType)
  }

  /** Position `i` of a validated tuple. */
  function Field(v: Value, i: nat): Value {
    if v.Arr? then At(v.items, i) else Undefined
  }

  /** `x ?? ""` on a value validated as an optional string. */
  function OptStrOr(v: Value, default: string): string {
    if v.Str? then v.s else default
  }

  function OptStr(v: Value): Option<string> {
    if v.Str? then Some(v.s) else None
  }

  function OptNum(v: Value): Option<real> {
    if v.Num? then Some(v.n) else None
  }

  /**
   * `LogLevel.fromLevel` as written: the entry of LEVELS at that index, an error outside
   * `0 <= level < 4`, and no level at all (`None`) at a fractional index inside it.
   */
  function FromLevelAsWritten(level: real): Result<Option<LogLevel>, DecodeError> {
    if level < 0.0 || level >= |LEVELS| as real then Err(InvalidLogLevel(level))
    else if level != level.Floor as real then Ok(None)
    else Ok(Some(LEVELS[level.Floor]))
  }

  /** `LogLevel.fromLevel` as intended: the level whose number is `level`, or an error. */
  function FromLevel(level: real): (r: Result<LogLevel, DecodeError>)
    ensures r.Ok? <==> exists l :: l in AllLevels && l.level as real == level
    ensures r.Ok? ==> r.value in AllLevels && r.value.level as real == level
    ensures r.Err? ==> r == Err(InvalidLogLevel(level))
  {
    if level < 0.0 || level >= |AllLevels| as real || level != level.Floor as real then Err(InvalidLogLevel(level))
    else Ok(AllLevels[level.Floor])
  }

  /** The default `MetricsData`, `{ resource_metrics: [] }`. */
  const EmptyMetricsData := Obj(map["resource_metrics" := Arr([])])

  /** `x ?? d`: undefined and null give the default. */
  function Nullish(v: Value, d: Value): Value {
    if v == Undefined || v == Null then d else v
  }

  function MouseTypeOf(name: Value): MouseType {
    if name == Str("mouse_click") then Click
    else if name == Str("mouse_up") then Up
    else if name == Str("mouse_scroll") then Scroll
    else if name == Str("mouse_drag") then Drag
    else if name == Str("monitor_touch") then Touch
    else Move
  }

  /** The static `init` of each class, applied to the whole tuple (discriminator included). */
  function Init(c: EventClass, args: seq<Value>): Result<Event, DecodeError> {
    match c
    case CharClass => InitChar(args)
    case KeyClass => InitKey(args)
    case PasteClass => InitPaste(args)
    case TimerClass => InitTimer(args)
    case TaskCompleteClass => InitTaskComplete(args)
    case RedstoneClass => InitRedstone(args)
    case TerminateClass => InitTerminate(args)
    case DiskClass => InitDisk(args)
    case PeripheralClass => InitPeripheral(args)
    case RednetMessageClass => InitRednetMessage(args)
    case ModemMessageClass => InitModemMessage(args)
    case HttpClass => InitHttp(args)
    case WebSocketMessageClass => InitWebSocketMessage(args)
    case WebSocketCloseClass => InitWebSocketClose(args)
    case WebSocketConnectClass => InitWebSocketConnect(args)
    case MouseClass => InitMouse(args)
    case ResizeClass => InitResize(args)
    case TurtleInventoryClass => InitTurtleInventory(args)
    case SpeakerAudioEmptyClass => InitSpeakerAudioEmpty(args)
    case ComputerCommandClass => InitComputerCommand(args)
    case LogClass => InitLog(args)
    case MetricClass => InitMetric(args)
    case MetricRegisterClass => InitMetricRegister(args)
    case MetricUnregisterClass => InitMetricUnregister(args)
    case MetricCollectClass => InitMetricCollect(args)
    case MetricResponseClass => InitMetricResponse(args)
    case GenericClass => InitGeneric(args)
  }

  function InitChar(args: seq<Value>): Result<Event, DecodeError> {
    var v :- ParseEventArgs(args, CharArgs);
    Ok(Char(StrOf(Field(v, 1))))
  }

  function InitKey(args: seq<Value>): Result<Event, DecodeError> {
    var v :- ParseEventArgs(args, KeyArgs);
    var isUp := Field(v, 0) == Str("key_up");
    Ok(Event.Key(NumOf(Field(v, 1)), if isUp then false else BoolOf(Field(v, 2)), isUp))
  }

  function InitPaste(args: seq<Value>): Result<Event, DecodeError> {
    var v :- ParseEventArgs(args, PasteArgs);
    Ok(Paste(StrOf(Field(v, 1))))
  }

  function InitTimer(args: seq<Value>): Result<Event, DecodeError> {
    var v :- ParseEventArgs(args, TimerArgs);
    Ok(Timer(NumOf(Field(v, 1)), Field(v, 0) == Str("alarm")))
  }

  function InitTaskComplete(args: seq<Value>): Result<Event, DecodeError> {
    var v :- ParseEventArgs(args, TaskCompleteArgs);
    var success := BoolOf(Field(v, 2));
    if success then Ok(TaskComplete(NumOf(Field(v, 1)), true, None, Drop(args, 3)))
    else Ok(TaskComplete(NumOf(Field(v, 1)), false, Some(OptStrOr(Field(v, 3), "")), []))
  }

  function InitRedstone(args: seq<Value>): Result<Event, DecodeError> {
    var _ :- ParseEventArgs(args, RedstoneArgs);
    Ok(Redstone)
  }

  function InitTerminate(args: seq<Value>): Result<Event, DecodeError> {
    var _ :- ParseEventArgs(args, TerminateArgs);
    Ok(Terminate)
  }

  function InitDisk(args: seq<Value>): Result<Event, DecodeError> {
    var v :- ParseEventArgs(args, DiskArgs);
    Ok(Disk(StrOf(Field(v, 1)), Field(v, 0) == Str("disk_eject")))
  }

  function InitPeripheral(args: seq<Value>): Result<Event, DecodeError> {
    var v :- ParseEventArgs(args, PeripheralArgs);
    Ok(Peripheral(StrOf(Field(v, 1)), Field(v, 0) == Str("peripheral_detach")))
  }

  function InitRednetMessage(args: seq<Value>): Result<Event, DecodeError> {
    var v :- ParseEventArgs(args, RednetMessageArgs);
    Ok(RednetMessage(NumOf(Field(v, 1)), Field(v, 2), OptStr(Field(v, 3))))
  }

  function InitModemMessage(args: seq<Value>): Result<Event, DecodeError> {
    var v :- ParseEventArgs(args, ModemMessageArgs);
    Ok(ModemMessage(StrOf(Field(v, 1)), NumOf(Field(v, 2)), NumOf(Field(v, 3)), Field(v, 4), NumOf(Field(v, 5))))
  }

  function InitHttp(args: seq<Value>): Result<Event, DecodeError> {
    var v :- ParseEventArgs(args, HttpArgs);
    if Field(v, 0) == Str("http_success") then Ok(Http(StrOf(Field(v, 1)), Field(v, 2), None))
    else Ok(Http(StrOf(Field(v, 1)), Field(v, 3), Some(OptStrOr(Field(v, 2), ""))))
  }

  function InitWebSocketMessage(args: seq<Value>): Result<Event, DecodeError> {
    var v :- ParseEventArgs(args, WebSocketMessageArgs);
    Ok(WebSocketMessage(StrOf(Field(v, 1)), StrOf(Field(v, 2)), BoolOf(Field(v, 3))))
  }

  function InitWebSocketClose(args: seq<Value>): Result<Event, DecodeError> {
    var v :- ParseEventArgs(args, WebSocketClosedArgs);
    Ok(WebSocketClose(StrOf(Field(v, 1)), OptStr(Field(v, 2)), OptNum(Field(v, 3))))
  }

  function InitWebSocketConnect(args: seq<Value>): Result<Event, DecodeError> {
    var v :- ParseEventArgs(args, WebSocketArgs);
    if Field(v, 0) == Str("websocket_success") then Ok(WebSocketConnect(Field(v, 1), None))
    else Ok(WebSocketConnect(Undefined, Some(OptStrOr(Field(v, 1), ""))))
  }

  function InitMouse(args: seq<Value>): Result<Event, DecodeError> {
    var v :- ParseEventArgs(args, MouseArgs);
    var t := MouseTypeOf(Field(v, 0));
    if t == Touch then Ok(Mouse(Touch, 0.0, NumOf(Field(v, 2)), NumOf(Field(v, 3)), Some(StrOf(Field(v, 1)))))
    else Ok(Mouse(t, NumOf(Field(v, 1)), NumOf(Field(v, 2)), NumOf(Field(v, 3)), None))
  }

  function InitResize(args: seq<Value>): Result<Event, DecodeError> {
    var v :- ParseEventArgs(args, ResizeArgs);
    if Field(v, 0) == Str("monitor_resize") then Ok(Resize(Some(StrOf(Field(v, 1))))) else Ok(Resize(None))
  }

  function InitTurtleInventory(args: seq<Value>): Result<Event, DecodeError> {
    var _ :- ParseEventArgs(args, TurtleInventoryArgs);
    Ok(TurtleInventory)
  }

  function InitSpeakerAudioEmpty(args: seq<Value>): Result<Event, DecodeError> {
    var v :- ParseEventArgs(args, SpeakerAudioEmptyArgs);
    Ok(SpeakerAudioEmpty(StrOf(Field(v, 1))))
  }

  function InitComputerCommand(args: seq<Value>): Result<Event, DecodeError> {
    var _ :- ParseEventArgs(args, ComputerCommandArgs);
    Ok(ComputerCommand(Drop(args, 1)))
  }

  function InitLog(args: seq<Value>): Result<Event, DecodeError> {
    var v :- ParseEventArgs(args, LogArgs);
    var level :- FromLevel(NumOf(Field(v, 1)));
    Ok(Log(level, StrOf(Field(v, 2)), Field(v, 3), Field(v, 4)))
  }

  /**
   * What `LogEvent.init` as written gives a log event: its fields, with the level read by
   * `fromLevel` as written (`None` where `LEVELS[level]` is undefined).
   */
  datatype LogRecord = LogRecord(level: Option<LogLevel>, text: string, info: Value, trace: Value)

  function InitLogAsWritten(args: seq<Value>): Result<LogRecord, DecodeError> {
    var v :- ParseEventArgs(args, LogArgs);
    var level :- FromLevelAsWritten(NumOf(Field(v, 1)));
    Ok(LogRecord(level, StrOf(Field(v, 2)), Field(v, 3), Field(v, 4)))
  }

  function InitMetric(args: seq<Value>): Result<Event, DecodeError> {
    var v :- ParseEventArgs(args, MetricArgs);
    Ok(Metric(Nullish(Field(v, 1), EmptyMetricsData)))
  }

  function InitMetricRegister(args: seq<Value>): Result<Event, DecodeError> {
    var v :- ParseEventArgs(args, MetricRegisterArgs);
    Ok(MetricRegister(StrOf(Field(v, 1))))
  }

  function InitMetricUnregister(args: seq<Value>): Result<Event, DecodeError> {
    var v :- ParseEventArgs(args, MetricUnregisterArgs);
    Ok(MetricUnregister(StrOf(Field(v, 1))))
  }

  function InitMetricCollect(args: seq<Value>): Result<Event, DecodeError> {
    var v :- ParseEventArgs(args, MetricCollectArgs);
    Ok(MetricCollect(NumOf(Field(v, 1)), NumOf(Field(v, 2))))
  }

  function InitMetricResponse(args: seq<Value>): Result<Event, DecodeError> {
    var v :- ParseEventArgs(args, MetricResponseArgs);
    Ok(MetricResponse(NumOf(Field(v, 1)), StrOf(Field(v, 2)), Nullish(Field(v, 3), Arr([]))))
  }

  function InitGeneric(args: seq<Value>): Result<Event, DecodeError> {
    Ok(Generic(args))
  }

  // ---------------------------------------------------------------- encoding

  function OptStrValue(o: Option<string>): Value {
    match o
    case Some(s) => Str(s)
    case None => Undefined
  }

  function OptNumValue(o: Option<real>): Value {
    match o
    case Some(n) => Num(n)
    case None => Undefined
  }

  function MouseName(t: MouseType): string {
    match t
    case Click => "mouse_click"
    case Up => "mouse_up"
    case Scroll => "mouse_scroll"
    case Drag => "mouse_drag"
    case Touch => "monitor_touch"
    case Move => "mouse_move"
  }

  /** `get_name()`; a generic event's name is whatever its first element is. */
  function Name(e: Event): Value {
    match e
    case Char(_) => Str("char")
    case Key(_, _, isUp) => Str(if isUp then "key_up" else "key")
    case Paste(_) => Str("paste")
    case Timer(_, isAlarm) => Str(if isAlarm then "alarm" else "timer")
    case TaskComplete(_, _, _, _) => Str("task_complete")
    case Redstone => Str("redstone")
    case Terminate => Str("terminate")
    case Disk(_, eject) => Str(if eject then "disk_eject" else "disk")
    case Peripheral(_, detach) => Str(if detach then "peripheral_detach" else "peripheral")
    case RednetMessage(_, _, _) => Str("rednet_message")
    case ModemMessage(_, _, _, _, _) => Str("modem_message")
    case Http(_, _, error) => Str(if error.None? then "http_success" else "http_failure")
    case WebSocketMessage(_, _, _) => Str("websocket_message")
    case WebSocketClose(_, _, _) => Str("websocket_closed")
    case WebSocketConnect(_, error) => Str(if error.None? then "websocket_success" else "websocket_failure")
    case Mouse(t, _, _, _, _) => Str(MouseName(t))
    case Resize(side) => Str(if side.None? then "term_resize" else "monitor_resize")
    case TurtleInventory => Str("turtle_inventory")
    case SpeakerAudioEmpty(_) => Str("speaker_audio_empty")
    case ComputerCommand(_) => Str("computer_command")
    case Log(_, _, _, _) => Str("log")
    case Metric(_) => Str("metric")
    case MetricRegister(_) => Str("metric_register")
    case MetricUnregister(_) => Str("metric_unregister")
    case MetricCollect(_, _) => Str("metric_collect")
    case MetricResponse(_, _, _) => Str("metric_response")
    case Generic(args) => At(args, 0)
  }

  /** `get_args()`. */
  function Args(e: Event): seq<Value> {
    match e
    case Char(c) => [Str(c)]
    case Key(key, isHeld, isUp) => [Num(key), if isUp then Undefined else Bool(isHeld)]
    case Paste(text) => [Str(text)]
    case Timer(id, _) => [Num(id)]
    case TaskComplete(id, success, error, params) =>
      if success then [Num(id), Bool(success)] + params else [Num(id), Bool(success), OptStrValue(error)]
    case Redstone => []
    case Terminate => []
    case Disk(side, _) => [Str(side)]
    case Peripheral(side, _) => [Str(side)]
    case RednetMessage(sender, message, protocol) => [Num(sender), message, OptStrValue(protocol)]
    case ModemMessage(side, channel, replyChannel, message, distance) =>
      [Str(side), Num(channel), Num(replyChannel), message, Num(distance)]
    case Http(url, handle, error) =>
      [Str(url), if error.None? then handle else OptStrValue(error), if error.Some? then handle else Undefined]
    case WebSocketMessage(url, content, isBinary) => [Str(url), Str(content), Bool(isBinary)]
    case WebSocketClose(url, reason, code) => [Str(url), OptStrValue(reason), OptNumValue(code)]
    case WebSocketConnect(handle, error) => [if handle == Undefined then OptStrValue(error) else handle]
    case Mouse(t, button, x, y, side) => [if t == Touch then OptStrValue(side) else Num(button), Num(x), Num(y)]
    case Resize(side) => [OptStrValue(side)]
    case TurtleInventory => []
    case SpeakerAudioEmpty(side) => [Str(side)]
    case ComputerCommand(args) => args
    case Log(level, text, info, trace) => [Num(level.level as real), Str(text), info, trace]
    case Metric(data) => [data]
    case MetricRegister(p) => [Str(p)]
    case MetricUnregister(p) => [Str(p)]
    case MetricCollect(r, t) => [Num(r), Num(t)]
    case MetricResponse(r, p, m) => [Num(r), Str(p), m]
    case Generic(args) => Drop(args, 1)
  }

  /** The tuple an event stands for: `[get_name(), ...get_args()]`. */
  function Encode(e: Event): seq<Value> {
    [Name(e)] + Args(e)
  }
}
