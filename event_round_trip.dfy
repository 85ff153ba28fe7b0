/**
 * Round trips of the event layer: decoding `[get_name(), ...get_args()]` of a well-formed
 * event gives the event back, and whatever `init` produces is well formed and keeps the
 * discriminator it was decoded from.
 */
module EventRoundTrip {
  import opened Wrappers
  import opened Values
  import opened Events
  import opened EventProperties

  /** Decoding the encoding of a well-formed event restores it. */
  lemma RoundTrip(e: Event)
    requires WellFormed(e)
    ensures Init(ClassOf(e), Encode(e)) == Ok(e)
  {
    InitIsReference(ClassOf(e), Encode(e));
    RefRoundTrip(e);
  }

  lemma RefRoundTrip(e: Event)
    requires WellFormed(e)
    ensures Reference(ClassOf(e), Encode(e)) == Ok(e)
  {
    if e.Char? {
      CharRoundTrip(e);
    } else if e.Key? {
      KeyRoundTrip(e);
    } else if e.Paste? {
      PasteRoundTrip(e);
    } else if e.Timer? {
      TimerRoundTrip(e);
    } else if e.TaskComplete? {
      TaskCompleteRoundTrip(e);
    } else if e.Redstone? {
      RedstoneRoundTrip(e);
    } else if e.Terminate? {
      TerminateRoundTrip(e);
    } else if e.Disk? {
      DiskRoundTrip(e);
    } else if e.Peripheral? {
      PeripheralRoundTrip(e);
    } else if e.RednetMessage? {
      RednetMessageRoundTrip(e);
    } else if e.ModemMessage? {
      ModemMessageRoundTrip(e);
    } else if e.Http? {
      HttpRoundTrip(e);
    } else if e.WebSocketMessage? {
      WebSocketMessageRoundTrip(e);
    } else if e.WebSocketClose? {
      WebSocketCloseRoundTrip(e);
    } else if e.WebSocketConnect? {
      WebSocketConnectRoundTrip(e);
    } else if e.Mouse? {
      MouseRoundTrip(e);
    } else if e.Resize? {
      ResizeRoundTrip(e);
    } else if e.TurtleInventory? {
      TurtleInventoryRoundTrip(e);
    } else if e.SpeakerAudioEmpty? {
      SpeakerAudioEmptyRoundTrip(e);
    } else if e.ComputerCommand? {
      ComputerCommandRoundTrip(e);
    } else if e.Log? {
      LogRoundTrip(e);
    } else if e.Metric? {
      MetricRoundTrip(e);
    } else if e.MetricRegister? {
      MetricRegisterRoundTrip(e);
    } else if e.MetricUnregister? {
      MetricUnregisterRoundTrip(e);
    } else if e.MetricCollect? {
      MetricCollectRoundTrip(e);
    } else if e.MetricResponse? {
      MetricResponseRoundTrip(e);
    } else if e.Generic? {
      GenericRoundTrip(e);
    }
  }

  lemma CharRoundTrip(e: Event)
    requires e.Char? && WellFormed(e)
    ensures Reference(ClassOf(e), Encode(e)) == Ok(e)
  {
  }

  lemma KeyRoundTrip(e: Event)
    requires e.Key? && WellFormed(e)
    ensures Reference(ClassOf(e), Encode(e)) == Ok(e)
  {
  }

  lemma PasteRoundTrip(e: Event)
    requires e.Paste? && WellFormed(e)
    ensures Reference(ClassOf(e), Encode(e)) == Ok(e)
  {
  }

  lemma TimerRoundTrip(e: Event)
    requires e.Timer? && WellFormed(e)
    ensures Reference(ClassOf(e), Encode(e)) == Ok(e)
  {
  }

  lemma TaskCompleteRoundTrip(e: Event)
    requires e.TaskComplete? && WellFormed(e)
    ensures Reference(ClassOf(e), Encode(e)) == Ok(e)
  {
    if e.success {
      assert Drop(Encode(e), 3) == e.params;
    }
  }

  lemma RedstoneRoundTrip(e: Event)
    requires e.Redstone? && WellFormed(e)
    ensures Reference(ClassOf(e), Encode(e)) == Ok(e)
  {
  }

  lemma TerminateRoundTrip(e: Event)
    requires e.Terminate? && WellFormed(e)
    ensures Reference(ClassOf(e), Encode(e)) == Ok(e)
  {
  }

  lemma DiskRoundTrip(e: Event)
    requires e.Disk? && WellFormed(e)
    ensures Reference(ClassOf(e), Encode(e)) == Ok(e)
  {
  }

  lemma PeripheralRoundTrip(e: Event)
    requires e.Peripheral? && WellFormed(e)
    ensures Reference(ClassOf(e), Encode(e)) == Ok(e)
  {
  }

  lemma RednetMessageRoundTrip(e: Event)
    requires e.RednetMessage? && WellFormed(e)
    ensures Reference(ClassOf(e), Encode(e)) == Ok(e)
  {
  }

  lemma ModemMessageRoundTrip(e: Event)
    requires e.ModemMessage? && WellFormed(e)
    ensures Reference(ClassOf(e), Encode(e)) == Ok(e)
  {
  }

  lemma HttpRoundTrip(e: Event)
    requires e.Http? && WellFormed(e)
    ensures Reference(ClassOf(e), Encode(e)) == Ok(e)
  {
  }

  lemma WebSocketMessageRoundTrip(e: Event)
    requires e.WebSocketMessage? && WellFormed(e)
    ensures Reference(ClassOf(e), Encode(e)) == Ok(e)
  {
  }

  lemma WebSocketCloseRoundTrip(e: Event)
    requires e.WebSocketClose? && WellFormed(e)
    ensures Reference(ClassOf(e), Encode(e)) == Ok(e)
  {
  }

  lemma WebSocketConnectRoundTrip(e: Event)
    requires e.WebSocketConnect? && WellFormed(e)
    ensures Reference(ClassOf(e), Encode(e)) == Ok(e)
  {
  }

  lemma MouseRoundTrip(e: Event)
    requires e.Mouse? && WellFormed(e)
    ensures Reference(ClassOf(e), Encode(e)) == Ok(e)
  {
  }

  lemma ResizeRoundTrip(e: Event)
    requires e.Resize? && WellFormed(e)
    ensures Reference(ClassOf(e), Encode(e)) == Ok(e)
  {
  }

  lemma TurtleInventoryRoundTrip(e: Event)
    requires e.TurtleInventory? && WellFormed(e)
    ensures Reference(ClassOf(e), Encode(e)) == Ok(e)
  {
  }

  lemma SpeakerAudioEmptyRoundTrip(e: Event)
    requires e.SpeakerAudioEmpty? && WellFormed(e)
    ensures Reference(ClassOf(e), Encode(e)) == Ok(e)
  {
  }

  lemma ComputerCommandRoundTrip(e: Event)
    requires e.ComputerCommand? && WellFormed(e)
    ensures Reference(ClassOf(e), Encode(e)) == Ok(e)
  {
  }

  lemma LogRoundTrip(e: Event)
    requires e.Log? && WellFormed(e)
    ensures Reference(ClassOf(e), Encode(e)) == Ok(e)
  {
    LevelRoundTrip(e.level);
  }

  lemma MetricRoundTrip(e: Event)
    requires e.Metric? && WellFormed(e)
    ensures Reference(ClassOf(e), Encode(e)) == Ok(e)
  {
  }

  lemma MetricRegisterRoundTrip(e: Event)
    requires e.MetricRegister? && WellFormed(e)
    ensures Reference(ClassOf(e), Encode(e)) == Ok(e)
  {
  }

  lemma MetricUnregisterRoundTrip(e: Event)
    requires e.MetricUnregister? && WellFormed(e)
    ensures Reference(ClassOf(e), Encode(e)) == Ok(e)
  {
  }

  lemma MetricCollectRoundTrip(e: Event)
    requires e.MetricCollect? && WellFormed(e)
    ensures Reference(ClassOf(e), Encode(e)) == Ok(e)
  {
  }

  lemma MetricResponseRoundTrip(e: Event)
    requires e.MetricResponse? && WellFormed(e)
    ensures Reference(ClassOf(e), Encode(e)) == Ok(e)
  {
  }

  lemma GenericRoundTrip(e: Event)
    requires e.Generic? && WellFormed(e)
    ensures Reference(ClassOf(e), Encode(e)) == Ok(e)
  {
    assert Encode(e) == e.args;
  }

  /** What a decoded event keeps of the tuple it came from. */
  predicate DecodedFrom(c: EventClass, args: seq<Value>, e: Event) {
    ClassOf(e) == c && WellFormed(e) && Name(e) == At(args, 0)
  }

  /**
   * Whatever `init` returns is an instance of the class asked for, is well formed, and
   * answers `get_name()` with the discriminator it was decoded from.
   */
  lemma Decoded(c: EventClass, args: seq<Value>)
    requires c == GenericClass ==> |args| > 0
    ensures Init(c, args).Ok? ==> DecodedFrom(c, args, Init(c, args).value)
  {
    InitIsReference(c, args);
    RefDecoded(c, args);
  }

  lemma RefDecoded(c: EventClass, args: seq<Value>)
    requires c == GenericClass ==> |args| > 0
    ensures Reference(c, args).Ok? ==> DecodedFrom(c, args, Reference(c, args).value)
  {
    match c
    case CharClass => CharDecoded(args);
    case KeyClass => KeyDecoded(args);
    case PasteClass => PasteDecoded(args);
    case TimerClass => TimerDecoded(args);
    case TaskCompleteClass => TaskCompleteDecoded(args);
    case RedstoneClass => RedstoneDecoded(args);
    case TerminateClass => TerminateDecoded(args);
    case DiskClass => DiskDecoded(args);
    case PeripheralClass => PeripheralDecoded(args);
    case RednetMessageClass => RednetMessageDecoded(args);
    case ModemMessageClass => ModemMessageDecoded(args);
    case HttpClass => HttpDecoded(args);
    case WebSocketMessageClass => WebSocketMessageDecoded(args);
    case WebSocketCloseClass => WebSocketCloseDecoded(args);
    case WebSocketConnectClass => WebSocketConnectDecoded(args);
    case MouseClass => MouseDecoded(args);
    case ResizeClass => ResizeDecoded(args);
    case TurtleInventoryClass => TurtleInventoryDecoded(args);
    case SpeakerAudioEmptyClass => SpeakerAudioEmptyDecoded(args);
    case ComputerCommandClass => ComputerCommandDecoded(args);
    case LogClass => LogDecoded(args);
    case MetricClass => MetricDecoded(args);
    case MetricRegisterClass => MetricRegisterDecoded(args);
    case MetricUnregisterClass => MetricUnregisterDecoded(args);
    case MetricCollectClass => MetricCollectDecoded(args);
    case MetricResponseClass => MetricResponseDecoded(args);
    case GenericClass => GenericDecoded(args);
  }

  lemma CharDecoded(args: seq<Value>)
    ensures Reference(CharClass, args).Ok? ==> DecodedFrom(CharClass, args, Reference(CharClass, args).value)
  {
  }

  lemma KeyDecoded(args: seq<Value>)
    ensures Reference(KeyClass, args).Ok? ==> DecodedFrom(KeyClass, args, Reference(KeyClass, args).value)
  {
  }

  lemma PasteDecoded(args: seq<Value>)
    ensures Reference(PasteClass, args).Ok? ==> DecodedFrom(PasteClass, args, Reference(PasteClass, args).value)
  {
  }

  lemma TimerDecoded(args: seq<Value>)
    ensures Reference(TimerClass, args).Ok? ==> DecodedFrom(TimerClass, args, Reference(TimerClass, args).value)
  {
  }

  lemma TaskCompleteDecoded(args: seq<Value>)
    ensures Reference(TaskCompleteClass, args).Ok? ==> DecodedFrom(TaskCompleteClass, args, Reference(TaskCompleteClass, args).value)
  {
  }

  lemma RedstoneDecoded(args: seq<Value>)
    ensures Reference(RedstoneClass, args).Ok? ==> DecodedFrom(RedstoneClass, args, Reference(RedstoneClass, args).value)
  {
  }

  lemma TerminateDecoded(args: seq<Value>)
    ensures Reference(TerminateClass, args).Ok? ==> DecodedFrom(TerminateClass, args, Reference(TerminateClass, args).value)
  {
  }

  lemma DiskDecoded(args: seq<Value>)
    ensures Reference(DiskClass, args).Ok? ==> DecodedFrom(DiskClass, args, Reference(DiskClass, args).value)
  {
  }

  lemma PeripheralDecoded(args: seq<Value>)
    ensures Reference(PeripheralClass, args).Ok? ==> DecodedFrom(PeripheralClass, args, Reference(PeripheralClass, args).value)
  {
  }

  lemma RednetMessageDecoded(args: seq<Value>)
    ensures Reference(RednetMessageClass, args).Ok? ==> DecodedFrom(RednetMessageClass, args, Reference(RednetMessageClass, args).value)
  {
  }

  lemma ModemMessageDecoded(args: seq<Value>)
    ensures Reference(ModemMessageClass, args).Ok? ==> DecodedFrom(ModemMessageClass, args, Reference(ModemMessageClass, args).value)
  {
  }

  lemma HttpDecoded(args: seq<Value>)
    ensures Reference(HttpClass, args).Ok? ==> DecodedFrom(HttpClass, args, Reference(HttpClass, args).value)
  {
  }

  lemma WebSocketMessageDecoded(args: seq<Value>)
    ensures Reference(WebSocketMessageClass, args).Ok? ==> DecodedFrom(WebSocketMessageClass, args, Reference(WebSocketMessageClass, args).value)
  {
  }

  lemma WebSocketCloseDecoded(args: seq<Value>)
    ensures Reference(WebSocketCloseClass, args).Ok? ==> DecodedFrom(WebSocketCloseClass, args, Reference(WebSocketCloseClass, args).value)
  {
  }

  lemma WebSocketConnectDecoded(args: seq<Value>)
    ensures Reference(WebSocketConnectClass, args).Ok? ==> DecodedFrom(WebSocketConnectClass, args, Reference(WebSocketConnectClass, args).value)
  {
  }

  lemma MouseDecoded(args: seq<Value>)
    ensures Reference(MouseClass, args).Ok? ==> DecodedFrom(MouseClass, args, Reference(MouseClass, args).value)
  {
  }

  lemma ResizeDecoded(args: seq<Value>)
    ensures Reference(ResizeClass, args).Ok? ==> DecodedFrom(ResizeClass, args, Reference(ResizeClass, args).value)
  {
  }

  lemma TurtleInventoryDecoded(args: seq<Value>)
    ensures Reference(TurtleInventoryClass, args).Ok? ==> DecodedFrom(TurtleInventoryClass, args, Reference(TurtleInventoryClass, args).value)
  {
  }

  lemma SpeakerAudioEmptyDecoded(args: seq<Value>)
    ensures Reference(SpeakerAudioEmptyClass, args).Ok? ==> DecodedFrom(SpeakerAudioEmptyClass, args, Reference(SpeakerAudioEmptyClass, args).value)
  {
  }

  lemma ComputerCommandDecoded(args: seq<Value>)
    ensures Reference(ComputerCommandClass, args).Ok? ==> DecodedFrom(ComputerCommandClass, args, Reference(ComputerCommandClass, args).value)
  {
  }

  lemma LogDecoded(args: seq<Value>)
    ensures Reference(LogClass, args).Ok? ==> DecodedFrom(LogClass, args, Reference(LogClass, args).value)
  {
  }

  lemma MetricDecoded(args: seq<Value>)
    ensures Reference(MetricClass, args).Ok? ==> DecodedFrom(MetricClass, args, Reference(MetricClass, args).value)
  {
  }

  lemma MetricRegisterDecoded(args: seq<Value>)
    ensures Reference(MetricRegisterClass, args).Ok? ==> DecodedFrom(MetricRegisterClass, args, Reference(MetricRegisterClass, args).value)
  {
  }

  lemma MetricUnregisterDecoded(args: seq<Value>)
    ensures Reference(MetricUnregisterClass, args).Ok? ==> DecodedFrom(MetricUnregisterClass, args, Reference(MetricUnregisterClass, args).value)
  {
  }

  lemma MetricCollectDecoded(args: seq<Value>)
    ensures Reference(MetricCollectClass, args).Ok? ==> DecodedFrom(MetricCollectClass, args, Reference(MetricCollectClass, args).value)
  {
  }

  lemma MetricResponseDecoded(args: seq<Value>)
    ensures Reference(MetricResponseClass, args).Ok? ==> DecodedFrom(MetricResponseClass, args, Reference(MetricResponseClass, args).value)
  {
  }

  lemma GenericDecoded(args: seq<Value>)
    requires |args| > 0
    ensures Reference(GenericClass, args).Ok? ==> DecodedFrom(GenericClass, args, Reference(GenericClass, args).value)
  {
  }

  /** Every name a non-generic event answers is one of the discriminators its class registers. */
  lemma NameInTypes(e: Event)
    requires !e.Generic?
    ensures Name(e).Str? && Name(e).s in Types(ClassOf(e))
  {
    if e.Mouse? {
      assert Types(MouseClass)[MouseIndex(e.mouseType)] == MouseName(e.mouseType);
    } else if e.Char? || e.Key? || e.Paste? || e.Timer? || e.TaskComplete? || e.Redstone? || e.Terminate? || e.Disk? || e.Peripheral? {
      NameInTypes0(e);
    } else if e.RednetMessage? || e.ModemMessage? || e.Http? || e.WebSocketMessage? {
      NameInTypes1(e);
    } else if e.WebSocketClose? || e.WebSocketConnect? || e.Resize? || e.TurtleInventory? {
      NameInTypes2(e);
    } else if e.SpeakerAudioEmpty? || e.ComputerCommand? || e.Log? || e.Metric? {
      NameInTypes3(e);
    } else if e.MetricRegister? || e.MetricUnregister? || e.MetricCollect? || e.MetricResponse? {
      NameInTypes4(e);
    }
  }

  lemma NameInTypes0(e: Event)
    requires e.Char? || e.Key? || e.Paste? || e.Timer? || e.TaskComplete? || e.Redstone? || e.Terminate? || e.Disk? || e.Peripheral?
    ensures Name(e).Str? && Name(e).s in Types(ClassOf(e))
  {
  }

  lemma NameInTypes1(e: Event)
    requires e.RednetMessage? || e.ModemMessage? || e.Http? || e.WebSocketMessage?
    ensures Name(e).Str? && Name(e).s in Types(ClassOf(e))
  {
  }

  lemma NameInTypes2(e: Event)
    requires e.WebSocketClose? || e.WebSocketConnect? || e.Resize? || e.TurtleInventory?
    ensures Name(e).Str? && Name(e).s in Types(ClassOf(e))
  {
  }

  lemma NameInTypes3(e: Event)
    requires e.SpeakerAudioEmpty? || e.ComputerCommand? || e.Log? || e.Metric?
    ensures Name(e).Str? && Name(e).s in Types(ClassOf(e))
  {
  }

  lemma NameInTypes4(e: Event)
    requires e.MetricRegister? || e.MetricUnregister? || e.MetricCollect? || e.MetricResponse?
    ensures Name(e).Str? && Name(e).s in Types(ClassOf(e))
  {
  }

  /** The position of each mouse discriminator in `MouseEvent.TYPES`. */
  function MouseIndex(t: MouseType): (i: nat)
    ensures i < 6 && Types(MouseClass)[i] == MouseName(t)
  {
    match t
    case Click => 0
    case Up => 1
    case Scroll => 2
    case Drag => 3
    case Touch => 4
    case Move => 5
  }

  /** Decoding, encoding and decoding again gives the first decoding back. */
  lemma ReDecode(c: EventClass, args: seq<Value>)
    requires c == GenericClass ==> |args| > 0
    requires Init(c, args).Ok?
    ensures Init(c, Encode(Init(c, args).value)) == Init(c, args)
  {
    Decoded(c, args);
    RoundTrip(Init(c, args).value);
  }

  /** `fromLevel` (as intended) inverts `getLevel` on every level. */
  lemma LevelRoundTrip(l: LogLevel)
    requires l in AllLevels
    ensures FromLevel(l.level as real) == Ok(l)
  {
  }

  /**
   * `fromLevel` as written does not invert `getLevel`: the number DEBUG reports decodes as
   * INFO, and the numbers of ERROR and CRITICAL are rejected.
   */
  lemma LevelRoundTripAsWritten()
    ensures FromLevelAsWritten(DEBUG.level as real) == Ok(Some(INFO))
    ensures FromLevelAsWritten(ERROR.level as real).Err?
    ensures FromLevelAsWritten(CRITICAL.level as real).Err?
    ensures FromLevelAsWritten(TRACE.level as real) == Ok(Some(DEBUG))
  {
  }

  /**
   * The log decoder as written against the corrected one: both accept the same tuples up to
   * the level; where the corrected level has a number below |LEVELS| the written one reads
   * the entry at that number (the next level up), and above it the written one throws.
   */
  lemma LogAsWritten(args: seq<Value>)
    ensures InitLog(args).Ok? && InitLog(args).value.level.level < |LEVELS| ==>
      var e := InitLog(args).value;
      InitLogAsWritten(args) == Ok(LogRecord(Some(LEVELS[e.level.level]), e.text, e.info, e.trace))
    ensures InitLog(args).Ok? && InitLog(args).value.level.level >= |LEVELS| ==>
      InitLogAsWritten(args) == Err(InvalidLogLevel(InitLog(args).value.level.level as real))
    ensures InitLog(args).Err? ==> InitLogAsWritten(args).Err? || InitLogAsWritten(args).value.level.None?
  {
    var p := ParseEventArgs(args, LogArgs);
    if p.Ok? {
      var n := NumOf(Field(p.value, 1));
      var l := FromLevel(n);
      if l.Ok? {
        assert n.Floor == l.value.level;
      } else if 0.0 <= n < |LEVELS| as real {
        assert n != n.Floor as real;
      }
    }
  }

  /**
   * As written, a well-formed log event does not decode back to itself: its level comes
   * back as the next level up, or the decode throws for ERROR and CRITICAL.
   */
  lemma LogRoundTripAsWritten(e: Event)
    requires e.Log? && WellFormed(e)
    ensures e.level.level < |LEVELS| ==>
      InitLogAsWritten(Encode(e)) == Ok(LogRecord(Some(LEVELS[e.level.level]), e.text, e.info, e.trace)) &&
      LEVELS[e.level.level] != e.level
    ensures e.level.level >= |LEVELS| ==> InitLogAsWritten(Encode(e)).Err?
  {
    LogRoundTrip(e);
    LogIsReference(Encode(e));
    LogAsWritten(Encode(e));
  }

  /**
   * The concrete failures as written: a DEBUG log comes back as INFO, and decoding,
   * encoding and decoding again turns an INFO log into WARNING.
   */
  lemma LogShiftAsWritten(text: string)
    ensures InitLogAsWritten(Encode(Log(DEBUG, text, Undefined, Undefined))) == Ok(LogRecord(Some(INFO), text, Undefined, Undefined))
    ensures InitLogAsWritten(Encode(Log(INFO, text, Undefined, Undefined))) == Ok(LogRecord(Some(WARNING), text, Undefined, Undefined))
  {
    LogRoundTripAsWritten(Log(DEBUG, text, Undefined, Undefined));
    LogRoundTripAsWritten(Log(INFO, text, Undefined, Undefined));
  }

  /**
   * `monitor_touch` keeps its first argument as the side and sets the button to 0; the other
   * mouse discriminators keep it as the button with no side; either way `get_args` gives the
   * same first argument back.
   */
  lemma MouseDecode(args: seq<Value>)
    ensures InitMouse(args).Ok? <==>
              ((At(args, 0) == Str("monitor_touch") && At(args, 1).Str?) ||
               (At(args, 0) in [Str("mouse_click"), Str("mouse_up"), Str("mouse_scroll"), Str("mouse_drag"), Str("mouse_move")]
                && At(args, 1).Num?))
              && At(args, 2).Num? && At(args, 3).Num?
    ensures InitMouse(args).Ok? ==>
              var e := InitMouse(args).value;
              e.Mouse? && Name(e) == At(args, 0) && Args(e)[0] == At(args, 1) &&
              (if At(args, 0) == Str("monitor_touch") then e.mouseType == Touch && e.button == 0.0 && e.touchSide == Some(At(args, 1).s)
               else e.mouseType != Touch && e.touchSide == None && e.button == At(args, 1).n) &&
              e.x == At(args, 2).n && e.y == At(args, 3).n
  {
    MouseIsReference(args);
    if InitMouse(args).Ok? {
      MouseDecoded(args);
    }
  }

  /**
   * A successful `task_complete` keeps `args[3:]` as its parameters and has no error; a
   * failed one has the given error, or "" when it is absent, and no parameters.
   */
  lemma TaskCompleteDecode(args: seq<Value>)
    ensures InitTaskComplete(args).Ok? <==>
              At(args, 0) == Str("task_complete") && At(args, 1).Num? &&
              (At(args, 2) == Bool(true) || (At(args, 2) == Bool(false) && (At(args, 3) == Undefined || At(args, 3).Str?)))
    ensures InitTaskComplete(args).Ok? ==>
              var e := InitTaskComplete(args).value;
              e.TaskComplete? && e.id == At(args, 1).n && (e.success <==> At(args, 2) == Bool(true)) &&
              (if e.success then e.params == Drop(args, 3) && e.error == None
               else e.params == [] && e.error == Some(if At(args, 3).Str? then At(args, 3).s else ""))
  {
    TaskCompleteIsReference(args);
  }
}
