/**
 * The older event layer (cc-tstl/src/event.ts): event classes whose `init` copies tuple
 * elements into fields without validating them, a table filled by plain assignment, and
 * pull functions that return `null` instead of throwing on a class mismatch.
 *
 * Casts such as `args[1] as string` check nothing, so every field holds the tuple element
 * it was copied from, as a `Value`.  Truthiness and `== null` follow JavaScript.
 */
module LegacyEvents {
  import opened Wrappers
  import opened Values
  import Events

  type MouseType = Events.MouseType

  datatype LegacyClass =
    | CharClass | KeyClass | PasteClass | TimerClass | TaskCompleteClass | RedstoneClass
    | TerminateClass | DiskClass | PeripheralClass | RednetMessageClass | ModemMessageClass
    | HttpClass | WebSocketClass | MouseClass | ResizeClass | TurtleInventoryClass
    | SpeakerAudioEmptyClass | ComputerCommandClass | GenericClass

  datatype LegacyEvent =
    | Char(character: Value)
    | Key(key: Value, isHeld: Value, isUp: bool)
    | Paste(text: Value)
    | Timer(id: Value, isAlarm: bool)
    | TaskComplete(id: Value, success: Value, error: Value, params: seq<Value>)
    | Redstone
    | Terminate
    | Disk(side: Value, eject: bool)
    | Peripheral(side: Value, detach: bool)
    | RednetMessage(sender: Value, message: Value, protocol: Value)
    | ModemMessage(side: Value, channel: Value, replyChannel: Value, message: Value, distance: Value)
    | Http(url: Value, handle: Value, error: Value)
    | WebSocket(handle: Value, error: Value)
    | Mouse(mouseType: MouseType, button: Value, x: Value, y: Value, side: Value)
    | Resize(side: Value)
    | TurtleInventory
    | SpeakerAudioEmpty(side: Value)
    | ComputerCommand(args: seq<Value>)
    | Generic(args: seq<Value>)

  /** What `init` and the pulls produce: an event, `null`, or the string thrown. */
  type Outcome = Result<Option<LegacyEvent>, string>

  const InvalidEventType := "Invalid event type"
  const Terminated := "Terminated"

  /** JavaScript truthiness. */
  predicate Truthy(v: Value) {
    match v
    case Undefined => false
    case Null => false
    case Bool(b) => b
    case Num(n) => n != 0.0
    case NaN => false
    case Str(s) => s != ""
    case Arr(_) => true
    case Obj(_) => true
  }

  /** `v == null`, which holds for undefined as well. */
  predicate IsNull(v: Value) {
    v == Null || v == Undefined
  }

  function ClassOf(e: LegacyEvent): LegacyClass {
    match e
    case Char(_) => CharClass
    case Key(_, _, _) => KeyClass
    case Paste(_) => PasteClass
    case Timer(_, _) => TimerClass
    case TaskComplete(_, _, _, _) => TaskCompleteClass
    case Redstone => RedstoneClass
    case Terminate => TerminateClass
    case Disk(_, _) => DiskClass
    case Peripheral(_, _) => PeripheralClass
    case RednetMessage(_, _, _) => RednetMessageClass
    case ModemMessage(_, _, _, _, _) => ModemMessageClass
    case Http(_, _, _) => HttpClass
    case WebSocket(_, _) => WebSocketClass
    case Mouse(_, _, _, _, _) => MouseClass
    case Resize(_) => ResizeClass
    case TurtleInventory => TurtleInventoryClass
    case SpeakerAudioEmpty(_) => SpeakerAudioEmptyClass
    case ComputerCommand(_) => ComputerCommandClass
    case Generic(_) => GenericClass
  }

  /** The static `TYPES` of each class. */
  function Types(c: LegacyClass): seq<string> {
    match c
    case CharClass => ["char"]
    case KeyClass => ["key", "key_up"]
    case PasteClass => ["paste"]
    case TimerClass => ["timer", "alarm"]
    case TaskCompleteClass => ["task_complete"]
    case RedstoneClass => ["redstone"]
    case TerminateClass => ["terminate"]
    case DiskClass => ["disk", "disk_eject"]
    case PeripheralClass => ["peripheral", "peripheral_detach"]
    case RednetMessageClass => ["rednet_message"]
    case ModemMessageClass => ["modem_message"]
    case HttpClass => ["http_success", "http_failure"]
    case WebSocketClass => ["websocket_success", "websocket_failure"]
    case MouseClass => ["mouse_click", "mouse_up", "mouse_scroll", "mouse_drag", "monitor_touch", "mouse_move"]
    case ResizeClass => ["term_resize", "monitor_resize"]
    case TurtleInventoryClass => ["turtle_inventory"]
    case SpeakerAudioEmptyClass => ["speaker_audio_empty"]
    case ComputerCommandClass => ["computer_command"]
    case GenericClass => []
  }

  /** `MouseEvent.init`'s if-chain, from a discriminator to a mouse type. */
  function MouseTypeOf(t: string): Option<MouseType> {
    match t
    case "mouse_click" => Some(Events.Click)
    case "mouse_up" => Some(Events.Up)
    case "mouse_scroll" => Some(Events.Scroll)
    case "mouse_drag" => Some(Events.Drag)
    case "monitor_touch" => Some(Events.Touch)
    case "mouse_move" => Some(Events.Move)
    case _ => None
  }

  /** `MouseEvent.get_name`'s table. */
  function MouseName(t: MouseType): string {
    match t
    case Click => "mouse_click"
    case Up => "mouse_up"
    case Scroll => "mouse_scroll"
    case Drag => "mouse_drag"
    case Touch => "monitor_touch"
    case Move => "mouse_move"
  }

  /** The discriminator `init` tests: `args[0]` when it is a string. */
  function Disc(args: seq<Value>): Option<string> {
    if At(args, 0).Str? then Some(At(args, 0).s) else None
  }

  /** The guard of every `init`: `args[0]` is a string among `names`. */
  predicate Claims(args: seq<Value>, names: seq<string>) {
    Disc(args).Some? && Disc(args).value in names
  }

  // ---------------------------------------------------------------- decoders

  /** The static `init` of each class. */
  function Init(c: LegacyClass, args: seq<Value>): Outcome {
    match c
    case CharClass => InitChar(args)
    case KeyClass => InitKey(args)
    case PasteClass => InitPaste(args)
    case TimerClass => InitTimer(args)
    case TaskCompleteClass => InitTaskComplete(args)
    case RedstoneClass => InitRedstone(args)
    case TerminateClass => InitTerminate(args)
    case DiskClass => InitDisk(args)
    case PeripheralClass => InitPeripheral(args)
    case RednetMessageClass => InitRednetMessage(args)
    case ModemMessageClass => InitModemMessage(args)
    case HttpClass => InitHttp(args)
    case WebSocketClass => InitWebSocket(args)
    case MouseClass => InitMouse(args)
    case ResizeClass => InitResize(args)
    case TurtleInventoryClass => InitTurtleInventory(args)
    case SpeakerAudioEmptyClass => InitSpeakerAudioEmpty(args)
    case ComputerCommandClass => InitComputerCommand(args)
    case GenericClass => InitGeneric(args)
  }

  function InitChar(args: seq<Value>): Outcome {
    if !Claims(args, Types(CharClass)) then Ok(None) else Ok(Some(Char(At(args, 1))))
  }

  function InitKey(args: seq<Value>): Outcome {
    if !Claims(args, Types(KeyClass)) then Ok(None)
    else
      var isUp := Disc(args) == Some("key_up");
      Ok(Some(Key(At(args, 1), if isUp then Bool(false) else At(args, 2), isUp)))
  }

  function InitPaste(args: seq<Value>): Outcome {
    if !Claims(args, Types(PasteClass)) then Ok(None) else Ok(Some(Paste(At(args, 1))))
  }

  function InitTimer(args: seq<Value>): Outcome {
    if !Claims(args, Types(TimerClass)) then Err(InvalidEventType)
    else Ok(Some(Timer(At(args, 1), Disc(args) == Some("alarm"))))
  }

  function InitTaskComplete(args: seq<Value>): Outcome {
    if !Claims(args, Types(TaskCompleteClass)) then Err(InvalidEventType)
    else if Truthy(At(args, 2)) then Ok(Some(TaskComplete(At(args, 1), At(args, 2), Null, Drop(args, 3))))
    else Ok(Some(TaskComplete(At(args, 1), At(args, 2), At(args, 3), [])))
  }

  function InitRedstone(args: seq<Value>): Outcome {
    if !Claims(args, Types(RedstoneClass)) then Err(InvalidEventType) else Ok(Some(Redstone))
  }

  function InitTerminate(args: seq<Value>): Outcome {
    if !Claims(args, Types(TerminateClass)) then Err(InvalidEventType) else Ok(Some(Terminate))
  }

  function InitDisk(args: seq<Value>): Outcome {
    if !Claims(args, Types(DiskClass)) then Err(InvalidEventType)
    else Ok(Some(Disk(At(args, 1), Disc(args) == Some("disk_eject"))))
  }

  function InitPeripheral(args: seq<Value>): Outcome {
    if !Claims(args, Types(PeripheralClass)) then Err(InvalidEventType)
    else Ok(Some(Peripheral(At(args, 1), Disc(args) == Some("peripheral_detach"))))
  }

  function InitRednetMessage(args: seq<Value>): Outcome {
    if !Claims(args, Types(RednetMessageClass)) then Err(InvalidEventType)
    else Ok(Some(RednetMessage(At(args, 1), At(args, 2), At(args, 3))))
  }

  function InitModemMessage(args: seq<Value>): Outcome {
    if !Claims(args, Types(ModemMessageClass)) then Err(InvalidEventType)
    else Ok(Some(ModemMessage(At(args, 1), At(args, 2), At(args, 3), At(args, 4), At(args, 5))))
  }

  function InitHttp(args: seq<Value>): Outcome {
    if !Claims(args, Types(HttpClass)) then Err(InvalidEventType)
    else if Disc(args) == Some("http_success") then Ok(Some(Http(At(args, 1), At(args, 2), Null)))
    else Ok(Some(Http(At(args, 1), At(args, 3), if IsNull(At(args, 2)) then Str("") else At(args, 2))))
  }

  function InitWebSocket(args: seq<Value>): Outcome {
    if !Claims(args, Types(WebSocketClass)) then Err(InvalidEventType)
    else if Disc(args) == Some("websocket_success") then Ok(Some(WebSocket(At(args, 1), Null)))
    else Ok(Some(WebSocket(Null, At(args, 1))))
  }

  function InitMouse(args: seq<Value>): Outcome {
    if Disc(args).None? then Ok(None)
    else if MouseTypeOf(Disc(args).value).None? then Err(InvalidEventType)
    else
      var t := MouseTypeOf(Disc(args).value).value;
      if t == Events.Touch then Ok(Some(Mouse(t, Num(0.0), At(args, 2), At(args, 3), At(args, 1))))
      else Ok(Some(Mouse(t, At(args, 1), At(args, 2), At(args, 3), Null)))
  }

  function InitResize(args: seq<Value>): Outcome {
    if !Claims(args, Types(ResizeClass)) then Err(InvalidEventType)
    else Ok(Some(Resize(if Disc(args) == Some("monitor_resize") then At(args, 1) else Null)))
  }

  function InitTurtleInventory(args: seq<Value>): Outcome {
    if !Claims(args, Types(TurtleInventoryClass)) then Err(InvalidEventType) else Ok(Some(TurtleInventory))
  }

  function InitSpeakerAudioEmpty(args: seq<Value>): Outcome {
    if !Claims(args, Types(SpeakerAudioEmptyClass)) then Err(InvalidEventType) else Ok(Some(SpeakerAudioEmpty(At(args, 1))))
  }

  function InitComputerCommand(args: seq<Value>): Outcome {
    if !Claims(args, Types(ComputerCommandClass)) then Err(InvalidEventType) else Ok(Some(ComputerCommand(Drop(args, 1))))
  }

  function InitGeneric(args: seq<Value>): Outcome {
    Ok(Some(Generic(args)))
  }

  // ---------------------------------------------------------------- encoders

  function Name(e: LegacyEvent): Value {
    match e
    case Char(_) => Str("char")
    case Key(_, _, isUp) => Str(if isUp then "key_up" else "key")
    case Paste(_) => Str("paste")
    case Timer(_, isAlarm) => Str(if isAlarm then "alarm" else "timer")
    case TaskComplete(_, _, _, _) => Str("task_complete")
    case Redstone => Str("redstone")
    case Terminate => Str("terminate")
    case Disk(_, eject) => Str(if eject then "disk_eject" else "disk")
    case Peripheral(_, detach) => Str(if detach then "peripheral_detach" else "peripheral")
    case RednetMessage(_, _, _) => Str("rednet_message")
    case ModemMessage(_, _, _, _, _) => Str("modem_message")
    case Http(_, _, error) => Str(if IsNull(error) then "http_success" else "http_failure")
    case WebSocket(_, error) => Str(if IsNull(error) then "websocket_success" else "websocket_failure")
    case Mouse(t, _, _, _, _) => Str(MouseName(t))
    case Resize(side) => Str(if IsNull(side) then "term_resize" else "monitor_resize")
    case TurtleInventory => Str("turtle_inventory")
    case SpeakerAudioEmpty(_) => Str("speaker_audio_empty")
    case ComputerCommand(_) => Str("computer_command")
    case Generic(args) => At(args, 0)
  }

  function Args(e: LegacyEvent): seq<Value> {
    match e
    case Char(c) => [c]
    case Key(k, held, isUp) => [k, if isUp then Null else held]
    case Paste(text) => [text]
    case Timer(id, _) => [id]
    case TaskComplete(id, success, error, params) => if Truthy(success) then [id, success] + params else [id, success, error]
    case Redstone => []
    case Terminate => []
    case Disk(side, _) => [side]
    case Peripheral(side, _) => [side]
    case RednetMessage(sender, message, protocol) => [sender, message, protocol]
    case ModemMessage(side, channel, reply, message, distance) => [side, channel, reply, message, distance]
    case Http(url, handle, error) => [url, if IsNull(error) then handle else error, if !IsNull(error) then handle else Null]
    case WebSocket(handle, error) => [if IsNull(handle) then error else handle]
    case Mouse(t, button, x, y, side) => [if t == Events.Touch then side else button, x, y]
    case Resize(side) => [side]
    case TurtleInventory => []
    case SpeakerAudioEmpty(side) => [side]
    case ComputerCommand(args) => args
    case Generic(args) => Drop(args, 1)
  }

  /** `[get_name(), ...get_args()]`. */
  function Encode(e: LegacyEvent): seq<Value> {
    [Name(e)] + Args(e)
  }

  // ---------------------------------------------------------------- pulls

  /** `pullEventRaw`: the registered `init` for `args[0]`, whose `null` passes through, else a generic event. */
  function PullEventRaw(table: map<string, LegacyClass>, args: seq<Value>): Outcome {
    if At(args, 0).Str? && At(args, 0).s in table then Init(table[At(args, 0).s], args) else Ok(Some(Generic(args)))
  }

  /** `pullEvent`: throws "Terminated" on a terminate event. */
  function PullEvent(table: map<string, LegacyClass>, args: seq<Value>): Outcome {
    var ev := PullEventRaw(table, args);
    if ev == Ok(Some(Terminate)) then Err(Terminated) else ev
  }

  /** `ev instanceof type ? ev : null`. */
  function Narrow(ev: Option<LegacyEvent>, c: LegacyClass): Option<LegacyEvent> {
    if ev.Some? && ClassOf(ev.value) == c then ev else None
  }

  function PullEventRawAs(table: map<string, LegacyClass>, args: seq<Value>, c: LegacyClass): Outcome {
    var ev :- PullEventRaw(table, args);
    Ok(Narrow(ev, c))
  }

  function PullEventAs(table: map<string, LegacyClass>, args: seq<Value>, c: LegacyClass): Outcome {
    var ev :- PullEvent(table, args);
    Ok(Narrow(ev, c))
  }

  // ---------------------------------------------------------------- the registry

  /** A class's `TYPES` paired with its `init`, as one `forEach` statement assigns them. */
  type Registration = (seq<string>, LegacyClass)

  /** The eighteen `forEach` statements, in source order. */
  const Registrations: seq<Registration> := [
    (Types(CharClass), CharClass), (Types(KeyClass), KeyClass), (Types(PasteClass), PasteClass),
    (Types(TimerClass), TimerClass), (Types(TaskCompleteClass), TaskCompleteClass),
    (Types(RedstoneClass), RedstoneClass), (Types(TerminateClass), TerminateClass),
    (Types(DiskClass), DiskClass), (Types(PeripheralClass), PeripheralClass),
    (Types(RednetMessageClass), RednetMessageClass), (Types(ModemMessageClass), ModemMessageClass),
    (Types(HttpClass), HttpClass), (Types(WebSocketClass), WebSocketClass), (Types(MouseClass), MouseClass),
    (Types(ResizeClass), ResizeClass), (Types(TurtleInventoryClass), TurtleInventoryClass),
    (Types(SpeakerAudioEmptyClass), SpeakerAudioEmptyClass), (Types(ComputerCommandClass), ComputerCommandClass)]

  /** `table` after the assignments of `regs`, in order. */
  function Installed(table: map<string, LegacyClass>, regs: seq<Registration>): map<string, LegacyClass>
    decreases |regs|
  {
    if regs == [] then table
    else
      var r := regs[|regs| - 1];
      Installed(table, regs[..|regs| - 1]) + map t | t in r.0 :: r.1
  }

  /** The table the module builds when it is loaded. */
  const LegacyTable := Installed(map[], Registrations)

  /** The class declaring the discriminator `t`, read off the class declarations. */
  function Owner(t: string): Option<LegacyClass> {
    match t
    case "char" => Some(CharClass)
    case "key" => Some(KeyClass)
    case "key_up" => Some(KeyClass)
    case "paste" => Some(PasteClass)
    case "timer" => Some(TimerClass)
    case "alarm" => Some(TimerClass)
    case "task_complete" => Some(TaskCompleteClass)
    case "redstone" => Some(RedstoneClass)
    case "terminate" => Some(TerminateClass)
    case "disk" => Some(DiskClass)
    case "disk_eject" => Some(DiskClass)
    case "peripheral" => Some(PeripheralClass)
    case "peripheral_detach" => Some(PeripheralClass)
    case "rednet_message" => Some(RednetMessageClass)
    case "modem_message" => Some(ModemMessageClass)
    case "http_success" => Some(HttpClass)
    case "http_failure" => Some(HttpClass)
    case "websocket_success" => Some(WebSocketClass)
    case "websocket_failure" => Some(WebSocketClass)
    case "mouse_click" => Some(MouseClass)
    case "mouse_up" => Some(MouseClass)
    case "mouse_scroll" => Some(MouseClass)
    case "mouse_drag" => Some(MouseClass)
    case "monitor_touch" => Some(MouseClass)
    case "mouse_move" => Some(MouseClass)
    case "term_resize" => Some(ResizeClass)
    case "monitor_resize" => Some(ResizeClass)
    case "turtle_inventory" => Some(TurtleInventoryClass)
    case "speaker_audio_empty" => Some(SpeakerAudioEmptyClass)
    case "computer_command" => Some(ComputerCommandClass)
    case _ => None
  }

  /** The module-level `eventInitializers` record, filled by plain assignment. */
  class Initializers {
    var table: map<string, LegacyClass>

    constructor()
      ensures table == map[]
    {
      table := map[];
    }

    /** One `forEach`: `eventInitializers[type] = init` for each of `types`, overwriting. */
    method Assign(types: seq<string>, c: LegacyClass)
      modifies this
      ensures table == old(table) + map t | t in types :: c
    {
      for i := 0 to |types|
        invariant table == old(table) + map t | t in types[..i] :: c
      {
        assert types[..i + 1] == types[..i] + [types[i]];
        table := table[types[i] := c];
      }
      assert types[..|types|] == types;
    }

    /** Loading the module: the `forEach` statements one after another. */
    method InstallAll()
      modifies this
      ensures table == Installed(old(table), Registrations)
    {
      for i := 0 to |Registrations|
        invariant table == Installed(old(table), Registrations[..i])
      {
        InstalledSnoc(old(table), Registrations, i);
        Assign(Registrations[i].0, Registrations[i].1);
      }
      assert Registrations[..|Registrations|] == Registrations;
    }
  }

  // ---------------------------------------------------------------- lemmas

  lemma InstalledSnoc(table: map<string, LegacyClass>, regs: seq<Registration>, i: nat)
    requires i < |regs|
    ensures Installed(table, regs[..i + 1]) == Installed(table, regs[..i]) + map t | t in regs[i].0 :: regs[i].1
  {
    assert regs[..i + 1][..i] == regs[..i];
  }

  /** A key is installed exactly when it was there before or some registration names it. */
  lemma {:induction false} InstalledKeys(table: map<string, LegacyClass>, regs: seq<Registration>, t: string)
    ensures t in Installed(table, regs) <==> t in table || exists j :: 0 <= j < |regs| && t in regs[j].0
    decreases |regs|
  {
    if regs != [] {
      var init := regs[..|regs| - 1];
      InstalledKeys(table, init, t);
      if exists j :: 0 <= j < |init| && t in init[j].0 {
        var j :| 0 <= j < |init| && t in init[j].0;
        assert regs[j] == init[j];
      }
      if exists j :: 0 <= j < |regs| && t in regs[j].0 {
        var j :| 0 <= j < |regs| && t in regs[j].0;
        if j < |init| {
          assert init[j] == regs[j];
        }
      }
    }
  }

  /** Assignment without a duplicate check: the last registration naming `t` owns it. */
  lemma {:induction false} LastAssignmentWins(table: map<string, LegacyClass>, regs: seq<Registration>, t: string, k: nat)
    requires k < |regs| && t in regs[k].0
    requires forall j :: k < j < |regs| ==> t !in regs[j].0
    ensures t in Installed(table, regs) && Installed(table, regs)[t] == regs[k].1
    decreases |regs|
  {
    var init := regs[..|regs| - 1];
    if k < |regs| - 1 {
      assert t !in regs[|regs| - 1].0;
      forall j | k < j < |init|
        ensures t !in init[j].0
      {
        assert init[j] == regs[j];
      }
      LastAssignmentWins(table, init, t, k);
    }
  }

  /** Registration `j` declares exactly the discriminators whose owner is its class. */
  lemma RegistrationOwner(j: nat)
    requires j < |Registrations|
    ensures forall t :: t in Registrations[j].0 <==> Owner(t) == Some(Registrations[j].1)
    ensures forall k :: 0 <= k < |Registrations| && k != j ==> Registrations[k].1 != Registrations[j].1
  {
  }

  /** The loaded table maps the declared discriminators, and nothing else, to their owners. */
  lemma LegacyTableLookup(t: string)
    ensures t in LegacyTable <==> Owner(t).Some?
    ensures t in LegacyTable ==> LegacyTable[t] == Owner(t).value
  {
    InstalledKeys(map[], Registrations, t);
    if t in LegacyTable {
      var k :| 0 <= k < |Registrations| && t in Registrations[k].0;
      RegistrationOwner(k);
      forall j | k < j < |Registrations|
        ensures t !in Registrations[j].0
      {
        RegistrationOwner(j);
      }
      LastAssignmentWins(map[], Registrations, t, k);
    } else if Owner(t).Some? {
      var k := OwnerIndex(Owner(t).value);
      RegistrationOwner(k);
    }
  }

  function OwnerIndex(c: LegacyClass): (k: nat)
    requires c != GenericClass
    ensures k < |Registrations| && Registrations[k].1 == c
  {
    match c
    case CharClass => 0
    case KeyClass => 1
    case PasteClass => 2
    case TimerClass => 3
    case TaskCompleteClass => 4
    case RedstoneClass => 5
    case TerminateClass => 6
    case DiskClass => 7
    case PeripheralClass => 8
    case RednetMessageClass => 9
    case ModemMessageClass => 10
    case HttpClass => 11
    case WebSocketClass => 12
    case MouseClass => 13
    case ResizeClass => 14
    case TurtleInventoryClass => 15
    case SpeakerAudioEmptyClass => 16
    case ComputerCommandClass => 17
  }

  /** `Owner` agrees with the classes' `TYPES`. */
  lemma OwnerTypes(c: LegacyClass, t: string)
    ensures t in Types(c) <==> Owner(t) == Some(c)
  {
    if t in Types(c) {
      OwnerOfTypes(c);
    }
    if Owner(t) == Some(c) {
      TypesOfOwner(t);
    }
  }

  /** Every discriminator a class lists is owned by it. */
  lemma OwnerOfTypes(c: LegacyClass)
    ensures forall t :: t in Types(c) ==> Owner(t) == Some(c)
  {
    match c
    case CharClass =>
      assert Owner("char") == Some(CharClass);
    case KeyClass =>
      assert Owner("key") == Some(KeyClass);
      assert Owner("key_up") == Some(KeyClass);
    case PasteClass =>
      assert Owner("paste") == Some(PasteClass);
    case TimerClass =>
      assert Owner("timer") == Some(TimerClass);
      assert Owner("alarm") == Some(TimerClass);
    case TaskCompleteClass =>
      assert Owner("task_complete") == Some(TaskCompleteClass);
    case RedstoneClass =>
      assert Owner("redstone") == Some(RedstoneClass);
    case TerminateClass =>
      assert Owner("terminate") == Some(TerminateClass);
    case DiskClass =>
      assert Owner("disk") == Some(DiskClass);
      assert Owner("disk_eject") == Some(DiskClass);
    case PeripheralClass =>
      assert Owner("peripheral") == Some(PeripheralClass);
      assert Owner("peripheral_detach") == Some(PeripheralClass);
    case RednetMessageClass =>
      assert Owner("rednet_message") == Some(RednetMessageClass);
    case ModemMessageClass =>
      assert Owner("modem_message") == Some(ModemMessageClass);
    case HttpClass =>
      assert Owner("http_success") == Some(HttpClass);
      assert Owner("http_failure") == Some(HttpClass);
    case WebSocketClass =>
      assert Owner("websocket_success") == Some(WebSocketClass);
      assert Owner("websocket_failure") == Some(WebSocketClass);
    case MouseClass =>
      assert Owner("mouse_click") == Some(MouseClass);
      assert Owner("mouse_up") == Some(MouseClass);
      assert Owner("mouse_scroll") == Some(MouseClass);
      assert Owner("mouse_drag") == Some(MouseClass);
      assert Owner("monitor_touch") == Some(MouseClass);
      assert Owner("mouse_move") == Some(MouseClass);
    case ResizeClass =>
      assert Owner("term_resize") == Some(ResizeClass);
      assert Owner("monitor_resize") == Some(ResizeClass);
    case TurtleInventoryClass =>
      assert Owner("turtle_inventory") == Some(TurtleInventoryClass);
    case SpeakerAudioEmptyClass =>
      assert Owner("speaker_audio_empty") == Some(SpeakerAudioEmptyClass);
    case ComputerCommandClass =>
      assert Owner("computer_command") == Some(ComputerCommandClass);
    case GenericClass =>
  }

  /** An owned discriminator is listed by its owner. */
  lemma TypesOfOwner(t: string)
    ensures Owner(t).Some? ==> t in Types(Owner(t).value)
  {
  }
  /** On a foreign discriminator Char, Key and Paste return null, Mouse returns null only for a
      non-string, and every other class throws "Invalid event type". */
  lemma MismatchOutcome(c: LegacyClass, args: seq<Value>)
    requires c != GenericClass && !Claims(args, Types(c))
    ensures c in {CharClass, KeyClass, PasteClass} ==> Init(c, args) == Ok(None)
    ensures c == MouseClass ==> Init(c, args) == if Disc(args).None? then Ok(None) else Err(InvalidEventType)
    ensures c !in {CharClass, KeyClass, PasteClass, MouseClass} ==> Init(c, args) == Err(InvalidEventType)
  {
  }

  /** An `http_failure` always carries a non-null error (defaulting to ""), so it stays a failure;
      an `http_success` has a null error and the handle from `args[2]`. */
  lemma HttpDecode(args: seq<Value>)
    requires Claims(args, Types(HttpClass))
    ensures Init(HttpClass, args).Ok? && Init(HttpClass, args).value.Some?
    ensures var e := Init(HttpClass, args).value.value;
      e.url == At(args, 1) &&
      (Disc(args) == Some("http_failure") ==>
        e.handle == At(args, 3) && !IsNull(e.error) && (IsNull(At(args, 2)) ==> e.error == Str("")) &&
        Name(e) == Str("http_failure")) &&
      (Disc(args) == Some("http_success") ==>
        e.handle == At(args, 2) && e.error == Null && Name(e) == Str("http_success"))
  {
  }

  /** A touch has button 0 and side `args[1]`, which it sends back in the first position; the
      other mouse events have no side and send their button. */
  lemma MouseDecode(args: seq<Value>)
    requires Claims(args, Types(MouseClass))
    ensures Init(MouseClass, args).Ok? && Init(MouseClass, args).value.Some?
    ensures var e := Init(MouseClass, args).value.value;
      Name(e) == At(args, 0) && e.x == At(args, 2) && e.y == At(args, 3) &&
      (Disc(args) == Some("monitor_touch") ==> e.button == Num(0.0) && e.side == At(args, 1)) &&
      (Disc(args) != Some("monitor_touch") ==> e.button == At(args, 1) && e.side == Null) &&
      Args(e) == [At(args, 1), At(args, 2), At(args, 3)]
  {
  }

  /** The tuples whose event re-encodes without loss: a websocket or monitor_resize payload that is
      present (undefined would come back as null or change the name), a non-empty generic tuple. */
  predicate Lossless(c: LegacyClass, args: seq<Value>) {
    (c == WebSocketClass ==> At(args, 1) != Undefined) &&
    (c == ResizeClass && Disc(args) == Some("monitor_resize") ==> At(args, 1) != Undefined) &&
    (c == GenericClass ==> |args| > 0)
  }

  /**
   * What each class's `init` guarantees: it yields an event exactly on its own discriminators
   * (on every tuple, for the generic class), the event has that class, and on a lossless tuple
   * decoding `[get_name(), ...get_args()]` gives the same event back.
   */
  predicate InitSound(c: LegacyClass, args: seq<Value>) {
    var r := Init(c, args);
    ((r.Ok? && r.value.Some?) <==> c == GenericClass || Claims(args, Types(c))) &&
    (r.Ok? && r.value.Some? ==> ClassOf(r.value.value) == c && (Lossless(c, args) ==> Init(c, Encode(r.value.value)) == r))
  }

  lemma InitSoundness(c: LegacyClass, args: seq<Value>)
    ensures InitSound(c, args)
  {
    match c
    case CharClass => CharSound(args);
    case KeyClass => KeySound(args);
    case PasteClass => PasteSound(args);
    case TimerClass => TimerSound(args);
    case TaskCompleteClass => TaskCompleteSound(args);
    case RedstoneClass => RedstoneSound(args);
    case TerminateClass => TerminateSound(args);
    case DiskClass => DiskSound(args);
    case PeripheralClass => PeripheralSound(args);
    case RednetMessageClass => RednetMessageSound(args);
    case ModemMessageClass => ModemMessageSound(args);
    case HttpClass => HttpSound(args);
    case WebSocketClass => WebSocketSound(args);
    case MouseClass => MouseSound(args);
    case ResizeClass => ResizeSound(args);
    case TurtleInventoryClass => TurtleInventorySound(args);
    case SpeakerAudioEmptyClass => SpeakerAudioEmptySound(args);
    case ComputerCommandClass => ComputerCommandSound(args);
    case GenericClass => GenericSound(args);
  }

  lemma CharSound(args: seq<Value>)
    ensures InitSound(CharClass, args)
  {
  }

  lemma KeySound(args: seq<Value>)
    ensures InitSound(KeyClass, args)
  {
  }

  lemma PasteSound(args: seq<Value>)
    ensures InitSound(PasteClass, args)
  {
  }

  lemma TimerSound(args: seq<Value>)
    ensures InitSound(TimerClass, args)
  {
  }

  lemma TaskCompleteSound(args: seq<Value>)
    ensures InitSound(TaskCompleteClass, args)
  {
    if Claims(args, Types(TaskCompleteClass)) && Truthy(At(args, 2)) {
      var e := InitTaskComplete(args).value.value;
      assert Drop(Encode(e), 3) == e.params;
    }
  }

  lemma RedstoneSound(args: seq<Value>)
    ensures InitSound(RedstoneClass, args)
  {
  }

  lemma TerminateSound(args: seq<Value>)
    ensures InitSound(TerminateClass, args)
  {
  }

  lemma DiskSound(args: seq<Value>)
    ensures InitSound(DiskClass, args)
  {
  }

  lemma PeripheralSound(args: seq<Value>)
    ensures InitSound(PeripheralClass, args)
  {
  }

  lemma RednetMessageSound(args: seq<Value>)
    ensures InitSound(RednetMessageClass, args)
  {
  }

  lemma ModemMessageSound(args: seq<Value>)
    ensures InitSound(ModemMessageClass, args)
  {
  }

  lemma HttpSound(args: seq<Value>)
    ensures InitSound(HttpClass, args)
  {
  }

  lemma WebSocketSound(args: seq<Value>)
    ensures InitSound(WebSocketClass, args)
  {
  }

  lemma MouseSound(args: seq<Value>)
    ensures InitSound(MouseClass, args)
  {
  }

  lemma ResizeSound(args: seq<Value>)
    ensures InitSound(ResizeClass, args)
  {
  }

  lemma TurtleInventorySound(args: seq<Value>)
    ensures InitSound(TurtleInventoryClass, args)
  {
  }

  lemma SpeakerAudioEmptySound(args: seq<Value>)
    ensures InitSound(SpeakerAudioEmptyClass, args)
  {
  }

  lemma ComputerCommandSound(args: seq<Value>)
    ensures InitSound(ComputerCommandClass, args)
  {
    if Claims(args, Types(ComputerCommandClass)) {
      var e := InitComputerCommand(args).value.value;
      assert Drop(Encode(e), 1) == e.args;
    }
  }

  lemma GenericSound(args: seq<Value>)
    ensures InitSound(GenericClass, args)
  {
    if |args| > 0 {
      assert Encode(Generic(args)) == args;
    }
  }

  /** A websocket_failure whose message is undefined re-encodes as a websocket_success. */
  lemma WebSocketFailureWithoutMessage()
    ensures var e := Init(WebSocketClass, [Str("websocket_failure")]).value.value;
      Name(e) == Str("websocket_success") && Init(WebSocketClass, Encode(e)) != Init(WebSocketClass, [Str("websocket_failure")])
  {
    var e := Init(WebSocketClass, [Str("websocket_failure")]).value.value;
    assert Encode(e) == [Str("websocket_success"), Undefined];
  }

  /** Only a registered `init` can fail or return null; anything else is a generic event. */
  lemma PullEventRawDispatch(args: seq<Value>)
    ensures forall c :: c != GenericClass && Claims(args, Types(c)) ==> PullEventRaw(LegacyTable, args) == Init(c, args)
    ensures (forall c :: c != GenericClass ==> !Claims(args, Types(c))) ==> PullEventRaw(LegacyTable, args) == Ok(Some(Generic(args)))
  {
    if At(args, 0).Str? {
      var t := At(args, 0).s;
      LegacyTableLookup(t);
      forall c | c != GenericClass
        ensures Claims(args, Types(c)) <==> Owner(t) == Some(c)
      {
        OwnerTypes(c, t);
      }
    }
  }

  /** No `init` throws "Terminated". */
  lemma InitNeverTerminated(c: LegacyClass, args: seq<Value>)
    ensures Init(c, args) != Err(Terminated)
  {
  }

  /** `pullEvent` throws "Terminated" exactly on a terminate event and otherwise passes the raw result on. */
  lemma PullEventTerminates(table: map<string, LegacyClass>, args: seq<Value>)
    ensures PullEvent(table, args) == Err(Terminated) <==> PullEventRaw(table, args) == Ok(Some(Terminate))
    ensures PullEventRaw(table, args) != Ok(Some(Terminate)) ==> PullEvent(table, args) == PullEventRaw(table, args)
  {
    if At(args, 0).Str? && At(args, 0).s in table {
      InitNeverTerminated(table[At(args, 0).s], args);
    }
  }

  /** The typed pulls return the event when it has the requested class, null for any other event
      or a null, and pass an error through. */
  lemma PullAsNarrows(table: map<string, LegacyClass>, args: seq<Value>, c: LegacyClass)
    ensures PullEventRawAs(table, args, c).Ok? <==> PullEventRaw(table, args).Ok?
    ensures PullEventRawAs(table, args, c).Ok? && PullEventRawAs(table, args, c).value.Some? <==>
      PullEventRaw(table, args).Ok? && PullEventRaw(table, args).value.Some? && ClassOf(PullEventRaw(table, args).value.value) == c
    ensures PullEventRawAs(table, args, c).Ok? && PullEventRawAs(table, args, c).value.Some? ==>
      PullEventRawAs(table, args, c) == PullEventRaw(table, args)
    ensures PullEventAs(table, args, c).Ok? && PullEventAs(table, args, c).value.Some? <==>
      PullEvent(table, args).Ok? && PullEvent(table, args).value.Some? && ClassOf(PullEvent(table, args).value.value) == c
    ensures c == TerminateClass ==> PullEventAs(table, args, c) != Ok(Some(Terminate))
  {
    PullEventTerminates(table, args);
  }

  /** Decoding an encoded decoded event through the loaded table gives it back. */
  lemma PullRoundTrip(c: LegacyClass, args: seq<Value>)
    requires c != GenericClass && Lossless(c, args)
    requires Init(c, args).Ok? && Init(c, args).value.Some?
    ensures PullEventRaw(LegacyTable, Encode(Init(c, args).value.value)) == Init(c, args)
  {
    var e := Init(c, args).value.value;
    InitSoundness(c, args);
    InitSoundness(c, Encode(e));
    PullEventRawDispatch(Encode(e));
  }
}
