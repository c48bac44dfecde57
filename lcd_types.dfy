/**
 * The value types of the binding: its error kinds, the capability markers with their
 * two capability predicates, the device-type flags handed to the SDK, the buttons and
 * the display sizes.
 */
module LcdTypes {

  /** A Rust `u8`. */
  type Byte = b: int | 0 <= b < 0x100

  /** `LcdError`: one kind per failure, no payload. */
  datatype LcdError =
    | NotConnected
    | Initialization
    | MonoBackground
    | MonoText
    | ColorBackground
    | ColorTitle
    | ColorText
    | NullCharacter

  /**
   * The marker types `LcdTypeMono`, `LcdTypeColor` and `LcdTypeBoth`. In Rust they are
   * zero-sized and exist only for the type checker; every one of them is an `LcdType`.
   */
  datatype Marker = Mono | Color | Both

  /** The marker implements `LcdMono`. */
  predicate HasMono(m: Marker) {
    m == Mono || m == Both
  }

  /** The marker implements `LcdColor`. */
  predicate HasColor(m: Marker) {
    m == Color || m == Both
  }

  /** The device classes a `LcdType` flag word can name. */
  datatype DeviceType = MonoDevice | ColorDevice

  /**
   * The `type_flags` word, as the set of device classes whose bit is set:
   * `LcdType::MONO`, `LcdType::COLOR`, and `LcdType::either()` (their bitwise union).
   */
  type TypeFlags = set<DeviceType>

  const MONO_FLAGS: TypeFlags := {MonoDevice}
  const COLOR_FLAGS: TypeFlags := {ColorDevice}
  const EITHER_FLAGS: TypeFlags := MONO_FLAGS + COLOR_FLAGS

  /**
   * The flags each `init_*` entry point stores for its marker. The flags ask the SDK for
   * exactly the device classes whose capability the marker grants, and never for none.
   */
  function FlagsOf(m: Marker): (flags: TypeFlags)
    ensures MonoDevice in flags <==> HasMono(m)
    ensures ColorDevice in flags <==> HasColor(m)
    ensures flags != {}
  {
    match m
    case Mono => MONO_FLAGS
    case Color => COLOR_FLAGS
    case Both => EITHER_FLAGS
  }

  /** `LcdButton`: the four monochrome and seven colour buttons of the vendor SDK. */
  datatype Button =
    | Mono0 | Mono1 | Mono2 | Mono3
    | ColorLeft | ColorRight | ColorOk | ColorCancel | ColorUp | ColorDown | ColorMenu

  /** `LcdButton::mono()`. */
  const MONO_BUTTONS: set<Button> := {Mono0, Mono1, Mono2, Mono3}

  /** `LcdButton::color()`. */
  const COLOR_BUTTONS: set<Button> :=
    {ColorLeft, ColorRight, ColorOk, ColorCancel, ColorUp, ColorDown, ColorMenu}

  const MONO_WIDTH: nat := 160
  const MONO_HEIGHT: nat := 43
  const MONO_BYTES_PER_PIXEL: nat := 1
  const COLOR_WIDTH: nat := 320
  const COLOR_HEIGHT: nat := 240
  const COLOR_BYTES_PER_PIXEL: nat := 4

  /** The byte count `set_mono_background` insists on. */
  const MONO_BACKGROUND_LEN: nat := MONO_WIDTH * MONO_HEIGHT

  /** The byte count `set_color_background` insists on. */
  const COLOR_BACKGROUND_LEN: nat := COLOR_WIDTH * COLOR_HEIGHT * COLOR_BYTES_PER_PIXEL

  /**
   * `buttons & LcdButton::mono()`: the largest part of the request that the monochrome
   * device has.
   */
  function MonoMask(buttons: set<Button>): (mask: set<Button>)
    ensures mask <= buttons && mask <= MONO_BUTTONS
    ensures forall b :: b in buttons && b in MONO_BUTTONS ==> b in mask
    ensures mask * COLOR_BUTTONS == {}
  {
    buttons * MONO_BUTTONS
  }

  /**
   * `buttons & LcdButton::color()`: the largest part of the request that the colour
   * device has.
   */
  function ColorMask(buttons: set<Button>): (mask: set<Button>)
    ensures mask <= buttons && mask <= COLOR_BUTTONS
    ensures forall b :: b in buttons && b in COLOR_BUTTONS ==> b in mask
    ensures mask * MONO_BUTTONS == {}
  {
    buttons * COLOR_BUTTONS
  }
}
