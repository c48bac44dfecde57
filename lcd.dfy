/**
 * The safe binding: the process-wide single-claim guard, the three `init_*` entry points,
 * the capability-gated methods of the `Lcd` handle and its `Drop`.
 *
 * Every SDK function is a foreign call whose answer this layer cannot see in advance, so
 * each method takes that answer as a parameter (`sdkInit`, `sdkConnected`, `sdkOk`, ...)
 * and records, in the ghost log `Process.calls`, exactly which foreign calls it made and
 * with which arguments.
 */
module LcdBinding {
  import opened Wrappers
  import opened Utf16
  import opened LcdTypes
  import opened WideText

  /** One call into the vendor SDK, with the arguments this layer passed. */
  datatype SdkCall =
    | LcdInit(appName: seq<CodeUnit>, typeFlags: TypeFlags)
    | LcdIsConnected(typeFlags: TypeFlags)
    | LcdUpdate
    | LcdIsButtonPressed(buttons: set<Button>)
    | LcdMonoSetBackground(bytemap: seq<Byte>)
    | LcdMonoSetText(lineNumber: nat, text: seq<CodeUnit>)
    | LcdColorSetBackground(bitmap: seq<Byte>)
    | LcdColorSetTitle(text: seq<CodeUnit>, red: Byte, green: Byte, blue: Byte)
    | LcdColorSetText(lineNumber: nat, text: seq<CodeUnit>, red: Byte, green: Byte, blue: Byte)
    | LcdShutdown

  /** `match sdk_call(..) { true => Ok(()), false => Err(failure) }` */
  function Check(sdkOk: bool, failure: LcdError): Result<(), LcdError> {
    if sdkOk then Success(()) else Failure(failure)
  }

  /**
   * What `init` returns, given the SDK's answers to `LogiLcdInit` and
   * `LogiLcdIsConnected`: each failure has exactly one error kind.
   */
  function InitOutcome(appName: string, sdkInit: bool, sdkConnected: bool): (r: Result<(), LcdError>)
    ensures r.Success? <==> '\0' !in appName && sdkInit && sdkConnected
    ensures r == Failure(NullCharacter) <==> '\0' in appName
    ensures r == Failure(Initialization) <==> '\0' !in appName && !sdkInit
    ensures r == Failure(NotConnected) <==> '\0' !in appName && sdkInit && !sdkConnected
  {
    match WireText(appName)
    case Failure(e) => Failure(e)
    case Success(_) => if sdkInit then Check(sdkConnected, NotConnected) else Failure(Initialization)
  }

  /**
   * The foreign calls `init` makes: none for a name holding U+0000, otherwise
   * `LogiLcdInit` with the wire name and the flags, followed by `LogiLcdIsConnected`
   * with the same flags only when the first succeeded.
   */
  function InitCalls(appName: string, typeFlags: TypeFlags, sdkInit: bool): (calls: seq<SdkCall>)
    ensures calls == [] <==> '\0' in appName
    ensures calls != [] ==> calls[0] == LcdInit(WireText(appName).value, typeFlags)
    ensures |calls| == 2 <==> '\0' !in appName && sdkInit
    ensures |calls| == 2 ==> calls[1] == LcdIsConnected(typeFlags)
    ensures |calls| <= 2
  {
    match WireText(appName)
    case Failure(_) => []
    case Success(ws) => [LcdInit(ws, typeFlags)] + if sdkInit then [LcdIsConnected(typeFlags)] else []
  }

  /**
   * What a text setter returns: encoding comes first, so a text holding U+0000 gives
   * `NullCharacter` whatever the SDK would have said; otherwise the SDK's answer is
   * mapped to `failure`.
   */
  function TextOutcome(text: string, sdkOk: bool, failure: LcdError): (r: Result<(), LcdError>)
    requires failure != NullCharacter
    ensures r.Success? <==> '\0' !in text && sdkOk
    ensures r == Failure(NullCharacter) <==> '\0' in text
    ensures r == Failure(failure) <==> '\0' !in text && !sdkOk
  {
    match WireText(text)
    case Failure(e) => Failure(e)
    case Success(_) => Check(sdkOk, failure)
  }

  /**
   * The foreign call a text setter makes: `call` applied to the wire text, or nothing at
   * all when the text holds U+0000.
   */
  function TextCall(text: string, call: seq<CodeUnit> -> SdkCall): (calls: seq<SdkCall>)
    ensures calls == [] <==> '\0' in text
    ensures calls != [] ==> calls == [call(WireText(text).value)]
  {
    match WireText(text)
    case Failure(_) => []
    case Success(ws) => [call(ws)]
  }

  /**
   * The state of the process that the binding sees: the `INITIALIZED` static, the
   * foreign calls made so far and the handle currently alive.
   */
  class Process {
    /** `INITIALIZED`: the single-instance guard is claimed. */
    var initialized: bool
    /** Every foreign call made so far, oldest first. */
    ghost var calls: seq<SdkCall>
    /** The handle that owns the SDK, if one is alive. */
    ghost var live: Lcd?

    /**
     * A live handle holds the claimed guard, belongs to this process and carries the
     * flags of its marker. The guard can be claimed with no handle alive (see `Init`).
     */
    ghost predicate Valid()
      reads this
    {
      live != null ==> initialized && live.process == this && live.typeFlags == FlagsOf(live.marker)
    }

    /** The intended reading of the guard: claimed exactly while a handle is alive. */
    ghost predicate Exclusive()
      reads this
    {
      initialized <==> live != null
    }

    /** Program start: `ATOMIC_BOOL_INIT` is `false` and nothing has been called. */
    constructor ()
      ensures Valid() && Exclusive()
      ensures !initialized && live == null && calls == []
    {
      initialized := false;
      calls := [];
      live := null;
    }

    /** Only `added` happened: the guard and the live handle are as they were. */
    twostate predicate Logged(added: seq<SdkCall>)
      reads this
    {
      calls == old(calls) + added && initialized == old(initialized) && live == old(live)
    }

    /**
     * `init`: claim the guard (the `assert_eq!` on the swapped value panics when it was
     * already claimed, hence the requires), encode the name, then ask the SDK to start
     * and to confirm a device. The guard is released again when either SDK call fails;
     * the `?` on the encoding returns before that release, so a name holding U+0000
     * leaves the guard claimed.
     */
    method Init(appName: string, typeFlags: TypeFlags, sdkInit: bool, sdkConnected: bool)
      returns (r: Result<(), LcdError>)
      requires Valid() && !initialized
      modifies this
      ensures Valid() && live == null
      ensures r == InitOutcome(appName, sdkInit, sdkConnected)
      ensures calls == old(calls) + InitCalls(appName, typeFlags, sdkInit)
      ensures initialized <==> r.Success? || '\0' in appName
    {
      initialized := true;
      var ws :- StrToWchar(appName);
      calls := calls + [LcdInit(ws, typeFlags)];
      if sdkInit {
        calls := calls + [LcdIsConnected(typeFlags)];
        r := Check(sdkConnected, NotConnected);
      } else {
        r := Failure(Initialization);
      }
      if r.Failure? {
        initialized := false;
      }
    }

    /**
     * `init` as its release on failure evidently intends: every failed attempt,
     * including a name holding U+0000, gives the guard back.
     */
    method InitReleasing(appName: string, typeFlags: TypeFlags, sdkInit: bool, sdkConnected: bool)
      returns (r: Result<(), LcdError>)
      requires Valid() && !initialized
      modifies this
      ensures Valid() && live == null
      ensures r == InitOutcome(appName, sdkInit, sdkConnected)
      ensures calls == old(calls) + InitCalls(appName, typeFlags, sdkInit)
      ensures initialized <==> r.Success?
    {
      initialized := true;
      var encoded := StrToWchar(appName);
      if encoded.Failure? {
        initialized := false;
        return Failure(encoded.error);
      }
      var ws := encoded.value;
      calls := calls + [LcdInit(ws, typeFlags)];
      if sdkInit {
        calls := calls + [LcdIsConnected(typeFlags)];
        r := Check(sdkConnected, NotConnected);
      } else {
        r := Failure(Initialization);
      }
      if r.Failure? {
        initialized := false;
      }
    }

    /**
     * What every `init_*` entry point guarantees: the outcome of `init`, and on success a
     * new handle, now the live one, storing `typeFlags` for `marker`.
     */
    twostate predicate Opened(new r: Result<Lcd, LcdError>, appName: string, marker: Marker,
                              typeFlags: TypeFlags, sdkInit: bool, sdkConnected: bool)
      reads this
    {
      && Valid()
      && calls == old(calls) + InitCalls(appName, typeFlags, sdkInit)
      && (r.Success? <==> InitOutcome(appName, sdkInit, sdkConnected).Success?)
      && (r.Failure? ==> r.error == InitOutcome(appName, sdkInit, sdkConnected).error && live == null)
      && (r.Success? ==> && fresh(r.value) && live == r.value && r.value.process == this
                         && r.value.marker == marker && r.value.typeFlags == typeFlags)
      && (initialized <==> r.Success? || '\0' in appName)
    }

    /** `init(app_name, type_flags).map(|_| Lcd { type_flags, .. })`. */
    method Open(appName: string, marker: Marker, typeFlags: TypeFlags, sdkInit: bool, sdkConnected: bool)
      returns (r: Result<Lcd, LcdError>)
      requires Valid() && !initialized
      requires typeFlags == FlagsOf(marker)
      modifies this
      ensures Opened(r, appName, marker, typeFlags, sdkInit, sdkConnected)
    {
      var ok := Init(appName, typeFlags, sdkInit, sdkConnected);
      if ok.Failure? {
        return Failure(ok.error);
      }
      var h := new Lcd(typeFlags, marker, this);
      live := h;
      return Success(h);
    }

    /**
     * `Open` built on the corrected `init`: the guard is claimed afterwards exactly while
     * a handle is alive, on every path.
     */
    method OpenReleasing(appName: string, marker: Marker, typeFlags: TypeFlags, sdkInit: bool, sdkConnected: bool)
      returns (r: Result<Lcd, LcdError>)
      requires Valid() && Exclusive() && !initialized
      requires typeFlags == FlagsOf(marker)
      modifies this
      ensures Valid() && Exclusive()
      ensures calls == old(calls) + InitCalls(appName, typeFlags, sdkInit)
      ensures r.Success? <==> InitOutcome(appName, sdkInit, sdkConnected).Success?
      ensures r.Failure? ==> r.error == InitOutcome(appName, sdkInit, sdkConnected).error && live == null
      ensures r.Success? ==> && fresh(r.value) && live == r.value && r.value.process == this
                             && r.value.marker == marker && r.value.typeFlags == typeFlags
      ensures initialized <==> r.Success?
    {
      var ok := InitReleasing(appName, typeFlags, sdkInit, sdkConnected);
      if ok.Failure? {
        return Failure(ok.error);
      }
      var h := new Lcd(typeFlags, marker, this);
      live := h;
      return Success(h);
    }

    /** `init_mono`: a `Lcd<LcdTypeMono>` storing `LcdType::MONO`. */
    method InitMono(appName: string, sdkInit: bool, sdkConnected: bool) returns (r: Result<Lcd, LcdError>)
      requires Valid() && !initialized
      modifies this
      ensures Opened(r, appName, Mono, MONO_FLAGS, sdkInit, sdkConnected)
    {
      r := Open(appName, Mono, MONO_FLAGS, sdkInit, sdkConnected);
    }

    /** `init_color`: a `Lcd<LcdTypeColor>` storing `LcdType::COLOR`. */
    method InitColor(appName: string, sdkInit: bool, sdkConnected: bool) returns (r: Result<Lcd, LcdError>)
      requires Valid() && !initialized
      modifies this
      ensures Opened(r, appName, Color, COLOR_FLAGS, sdkInit, sdkConnected)
    {
      r := Open(appName, Color, COLOR_FLAGS, sdkInit, sdkConnected);
    }

    /** `init_either`: a `Lcd<LcdTypeBoth>` storing `LcdType::either()`. */
    method InitEither(appName: string, sdkInit: bool, sdkConnected: bool) returns (r: Result<Lcd, LcdError>)
      requires Valid() && !initialized
      modifies this
      ensures Opened(r, appName, Both, EITHER_FLAGS, sdkInit, sdkConnected)
    {
      r := Open(appName, Both, EITHER_FLAGS, sdkInit, sdkConnected);
    }
  }

  /**
   * `Lcd<T>`: the handle that owns the SDK. Its methods change nothing of the handle
   * itself; they make foreign calls, recorded in its process's log.
   */
  class Lcd {
    /** `type_flags`: the device classes the SDK was started for. */
    const typeFlags: TypeFlags
    /** `type_data: PhantomData<T>`: the marker, which exists only for the type checker. */
    ghost const marker: Marker
    /** The process whose SDK this handle owns. */
    const process: Process

    constructor (typeFlags: TypeFlags, ghost marker: Marker, process: Process)
      ensures this.typeFlags == typeFlags && this.marker == marker && this.process == process
    {
      this.typeFlags := typeFlags;
      this.marker := marker;
      this.process := process;
    }

    /** Rust's ownership: the handle exists, so it has not been dropped. */
    ghost predicate Live()
      reads process
    {
      process.Valid() && process.live == this
    }

    /** `is_connected`: asks about exactly the device classes the marker grants. */
    method IsConnected(sdkConnected: bool) returns (connected: bool)
      requires Live()
      modifies process
      ensures Live()
      ensures connected == sdkConnected
      ensures (MonoDevice in typeFlags <==> HasMono(marker)) && (ColorDevice in typeFlags <==> HasColor(marker))
      ensures process.Logged([LcdIsConnected(typeFlags)])
    {
      process.calls := process.calls + [LcdIsConnected(typeFlags)];
      connected := sdkConnected;
    }

    /** `update`: the SDK's answer, if any, is not passed on. */
    method Update()
      requires Live()
      modifies process
      ensures Live()
      ensures process.Logged([LcdUpdate])
    {
      process.calls := process.calls + [LcdUpdate];
    }

    /** `is_mono_buttons_pressed`: only monochrome buttons reach the SDK. */
    method IsMonoButtonsPressed(buttons: set<Button>, sdkPressed: bool) returns (pressed: bool)
      requires Live() && HasMono(marker)
      modifies process
      ensures Live()
      ensures pressed == sdkPressed
      ensures process.Logged([LcdIsButtonPressed(MonoMask(buttons))])
    {
      process.calls := process.calls + [LcdIsButtonPressed(MonoMask(buttons))];
      pressed := sdkPressed;
    }

    /**
     * `set_mono_background`: the `assert_eq!` on the length panics on any other size;
     * the SDK's failure becomes `MonoBackground`.
     */
    method SetMonoBackground(bytemap: seq<Byte>, sdkOk: bool) returns (r: Result<(), LcdError>)
      requires Live() && HasMono(marker)
      requires |bytemap| == MONO_BACKGROUND_LEN
      modifies process
      ensures Live()
      ensures r.Success? <==> sdkOk
      ensures r.Failure? ==> r.error == MonoBackground
      ensures process.Logged([LcdMonoSetBackground(bytemap)])
    {
      process.calls := process.calls + [LcdMonoSetBackground(bytemap)];
      r := Check(sdkOk, MonoBackground);
    }

    /**
     * `set_mono_text`: the text is encoded before `assert!(line_number < 4)`, so a text
     * holding U+0000 returns `NullCharacter` even for a line the assert would refuse,
     * and the SDK is not called.
     */
    method SetMonoText(lineNumber: nat, text: string, sdkOk: bool) returns (r: Result<(), LcdError>)
      requires Live() && HasMono(marker)
      requires lineNumber < 4 || '\0' in text
      modifies process
      ensures Live()
      ensures r == TextOutcome(text, sdkOk, MonoText)
      ensures process.Logged(TextCall(text, ws => LcdMonoSetText(lineNumber, ws)))
    {
      var ws :- StrToWchar(text);
      process.calls := process.calls + [LcdMonoSetText(lineNumber, ws)];
      r := Check(sdkOk, MonoText);
    }

    /** `is_color_buttons_pressed`: only colour buttons reach the SDK. */
    method IsColorButtonsPressed(buttons: set<Button>, sdkPressed: bool) returns (pressed: bool)
      requires Live() && HasColor(marker)
      modifies process
      ensures Live()
      ensures pressed == sdkPressed
      ensures process.Logged([LcdIsButtonPressed(ColorMask(buttons))])
    {
      process.calls := process.calls + [LcdIsButtonPressed(ColorMask(buttons))];
      pressed := sdkPressed;
    }

    /**
     * `set_color_background`: the `assert_eq!` on the length panics on any other size;
     * the SDK's failure becomes `ColorBackground`.
     */
    method SetColorBackground(bitmap: seq<Byte>, sdkOk: bool) returns (r: Result<(), LcdError>)
      requires Live() && HasColor(marker)
      requires |bitmap| == COLOR_BACKGROUND_LEN
      modifies process
      ensures Live()
      ensures r.Success? <==> sdkOk
      ensures r.Failure? ==> r.error == ColorBackground
      ensures process.Logged([LcdColorSetBackground(bitmap)])
    {
      process.calls := process.calls + [LcdColorSetBackground(bitmap)];
      r := Check(sdkOk, ColorBackground);
    }

    /** `set_color_title`: no line to check; the SDK's failure becomes `ColorTitle`. */
    method SetColorTitle(text: string, red: Byte, green: Byte, blue: Byte, sdkOk: bool)
      returns (r: Result<(), LcdError>)
      requires Live() && HasColor(marker)
      modifies process
      ensures Live()
      ensures r == TextOutcome(text, sdkOk, ColorTitle)
      ensures process.Logged(TextCall(text, ws => LcdColorSetTitle(ws, red, green, blue)))
    {
      var ws :- StrToWchar(text);
      process.calls := process.calls + [LcdColorSetTitle(ws, red, green, blue)];
      r := Check(sdkOk, ColorTitle);
    }

    /**
     * `set_color_text`: as `set_mono_text`, the encoding runs before
     * `assert!(line_number < 4)`; the SDK's failure becomes `ColorText`.
     */
    method SetColorText(lineNumber: nat, text: string, red: Byte, green: Byte, blue: Byte, sdkOk: bool)
      returns (r: Result<(), LcdError>)
      requires Live() && HasColor(marker)
      requires lineNumber < 4 || '\0' in text
      modifies process
      ensures Live()
      ensures r == TextOutcome(text, sdkOk, ColorText)
      ensures process.Logged(TextCall(text, ws => LcdColorSetText(lineNumber, ws, red, green, blue)))
    {
      var ws :- StrToWchar(text);
      process.calls := process.calls + [LcdColorSetText(lineNumber, ws, red, green, blue)];
      r := Check(sdkOk, ColorText);
    }

    /**
     * `Drop`: shut the SDK down once and release the guard, whatever the handle's
     * earlier calls returned; a new `init_*` may follow.
     */
    method Drop()
      requires Live()
      modifies process
      ensures process.Valid() && process.Exclusive()
      ensures !process.initialized && process.live == null
      ensures process.calls == old(process.calls) + [LcdShutdown]
    {
      process.calls := process.calls + [LcdShutdown];
      process.live := null;
      process.initialized := false;
    }
  }

  /**
   * Dropping a handle and starting over: the guard `Drop` releases satisfies the
   * precondition of the next `init_*`, even after a failed call on the old handle.
   */
  method DropThenReopen(h: Lcd, text: string, appName: string, sdkInit: bool, sdkConnected: bool)
    returns (r: Result<Lcd, LcdError>)
    requires h.Live() && HasMono(h.marker)
    modifies h.process
    ensures r.Success? <==> InitOutcome(appName, sdkInit, sdkConnected).Success?
    ensures r.Success? ==> r.value.Live() && r.value.marker == Color && r.value != h
    ensures h.process.calls ==
      old(h.process.calls) + TextCall(text, ws => LcdMonoSetText(0, ws)) + [LcdShutdown]
      + InitCalls(appName, COLOR_FLAGS, sdkInit)
  {
    var p := h.process;
    var _ := h.SetMonoText(0, text, false);
    h.Drop();
    r := p.InitColor(appName, sdkInit, sdkConnected);
  }

  /**
   * The guard leaked by `init` on a name holding U+0000: no handle is alive, so no
   * `Drop` can ever run, and the guard stays claimed, so every later `init_*` panics.
   */
  method NulNameLocksOut(p: Process) returns (r: Result<Lcd, LcdError>)
    requires p.Valid() && !p.initialized
    modifies p
    ensures r == Failure(NullCharacter)
    ensures p.initialized && p.live == null && !p.Exclusive()
  {
    r := p.InitMono("app\0name", true, true);
  }

  /**
   * The corrected `init` gives the guard back on a name holding U+0000; for the guard on
   * every path, success included, see `Process.OpenReleasing`.
   */
  method NulNameReleases(p: Process) returns (r: Result<(), LcdError>)
    requires p.Valid() && p.Exclusive() && !p.initialized
    modifies p
    ensures r == Failure(NullCharacter)
    ensures !p.initialized && p.Exclusive()
  {
    r := p.InitReleasing("app\0name", MONO_FLAGS, true, true);
  }
}
