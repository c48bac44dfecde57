# logi-lcd: a Dafny model of the safe LCD binding

`logi-lcd` wraps Logitech's LCD SDK (monochrome and colour G-series displays) in a safe
Rust API. This project models its one source file, `src/lib.rs`:

- the wire text encoder `str_to_wchar`: UTF-16 (section 2.1 of RFC 2781), a zero unit
  refused with `NullCharacter`, one 0 terminator appended;
- the process-wide single-instance guard `INITIALIZED`, claimed by `init` and released
  on SDK failure and by `Drop`;
- the capability markers `LcdTypeMono`, `LcdTypeColor`, `LcdTypeBoth`, the traits
  `LcdMono`/`LcdColor` they implement, and the `type_flags` each `init_*` stores;
- every method of the `Lcd<T>` handle, with its panicking asserts as preconditions and
  its mapping from the SDK's boolean answer to one `LcdError` kind.

Layout:

- `wrappers.dfy` (`Wrappers`): `Option` and `Result`; `:-` stands for Rust's `?`.
- `utf16.dfy` (`Utf16`): `encode_utf16` as `Encode`, with the decoder of section 2.2 of
  RFC 2781 as its inverse and the round trip proved.
- `lcd_types.dfy` (`LcdTypes`): `LcdError`, the markers with `HasMono`/`HasColor`, the
  flag words, the buttons with the mono/colour masks, the display sizes.
- `wide_text.dfy` (`WideText`): `str_to_wchar` as a specification function `WireText`
  and as the method `StrToWchar`, whose loop is the `iter().any` scan.
- `lcd.dfy` (`LcdBinding`): class `Process` (the `INITIALIZED` static, a ghost log of
  the foreign calls made, and the ghost live handle), `init` and the three `init_*`
  entry points; class `Lcd` (the handle) with its methods and `Drop`.

Every SDK function is foreign. Each modelled method takes the SDK's answer as a
parameter (`sdkInit`, `sdkConnected`, `sdkOk`, `sdkPressed`) and appends the call it
made, with its arguments, to the ghost log `Process.calls`. The contracts therefore
state which foreign calls happen, in which order and with which arguments, and how each
answer becomes a result. Rust's compile-time trait gating becomes a precondition on the
marker (`requires HasMono(marker)`). Rust's ownership becomes `Lcd.Live()`: the handle
is the process's live handle. Every method keeps `Live()`, and `Drop` ends it.

Where the code and its documentation differ, the model follows the code:

- The text setters encode the text before `assert!(line_number < 4)`. So a text holding
  U+0000 returns `NullCharacter` for any line number, including 4 and above. Only a
  null-free text with a line of 4 or more panics. The precondition is
  `lineNumber < 4 || '\0' in text`.
- The wire form holds UTF-16 code units. Its length is the UTF-16 length plus one. That
  equals the character count plus one only for text inside the Basic Multilingual Plane
  (`Utf16.EncodeLengthBmp`).
- A name holding U+0000 leaves the guard claimed (see Findings).

## Model

| member | source | states |
|---|---|---|
| `Utf16.EncodeScalar` | src/lib.rs:78 | one unit for a scalar below 0x10000, else a high/low surrogate pair; a 0 unit occurs exactly for U+0000 |
| `Utf16.Encode` | src/lib.rs:78 | the encoding has between one and two units per character |
| `Utf16.DecodeEncode` | src/lib.rs:78 | decoding the UTF-16 encoding gives back the string: the encoder loses nothing |
| `Utf16.ZeroUnitIffNul` | src/lib.rs:78-80 | the encoding contains a 0 unit if and only if the string contains U+0000 |
| `Utf16.EncodeLengthBmp` | src/lib.rs:78 | text encodes to exactly one unit per character if and only if it holds no supplementary-plane character |
| `LcdTypes.FlagsOf` | src/lib.rs:47-54 | the flags stored for a marker name the mono device exactly when the marker implements `LcdMono`, the colour device exactly when it implements `LcdColor`, and are never empty |
| `LcdTypes.MonoMask` | src/lib.rs:198 | the mask sent is contained in both the request and the mono button set, keeps every requested mono button, and holds no colour button |
| `LcdTypes.ColorMask` | src/lib.rs:257 | the mask sent is contained in both the request and the colour button set, keeps every requested colour button, and holds no mono button |
| `WideText.WireText` | src/lib.rs:77-87 | `NullCharacter` if and only if the text contains U+0000; otherwise the encoding followed by one 0, of length encoding + 1, whose only 0 is the last unit and which decodes back to the text once the terminator is stripped |
| `WideText.StrToWchar` | src/lib.rs:77-87 | the collect / `any` scan / `push(0)` sequence returns exactly `WireText` of its input |
| `LcdBinding.InitOutcome` | src/lib.rs:91-101 | `Ok` if and only if the name is null-free and both `LogiLcdInit` and `LogiLcdIsConnected` answer true; `NullCharacter` exactly for a name with U+0000, `Initialization` exactly when `LogiLcdInit` fails, `NotConnected` exactly when only the connection check fails |
| `LcdBinding.InitCalls` | src/lib.rs:91-101 | no foreign call for a name with U+0000; otherwise `LogiLcdInit` with the wire name and the flags, then `LogiLcdIsConnected` with the same flags only if the first succeeded |
| `LcdBinding.TextOutcome` | src/lib.rs:235-242 | `NullCharacter` exactly for a text with U+0000, whatever the SDK says; otherwise `Ok` if and only if the SDK answers true, and the setter's own error kind otherwise |
| `LcdBinding.TextCall` | src/lib.rs:235-238 | a text setter makes no foreign call for a text with U+0000, and otherwise one call carrying the wire text |
| `LcdBinding.Process.constructor` | src/lib.rs:20 | the guard starts unclaimed, with no live handle and no foreign call made |
| `LcdBinding.Process.Init` | src/lib.rs:89-106 | requires the guard unclaimed (the `assert_eq!` on the swap); returns `InitOutcome`, makes exactly `InitCalls`; the guard is left claimed on `Ok` and on `NullCharacter`, released on either SDK failure |
| `LcdBinding.Process.InitReleasing` | src/lib.rs:102-104 | corrected `init`: same result and calls, but the guard is claimed afterwards if and only if the result is `Ok` |
| `LcdBinding.Process.Open` | src/lib.rs:120-123 | on `Ok` a fresh handle, now the live one, storing the flags its marker implies; on failure `init`'s error and no live handle |
| `LcdBinding.Process.OpenReleasing` | src/lib.rs:102-104 | corrected entry point: same result and calls as `Open`; the guard is claimed afterwards if and only if the result is `Ok`, and on failure no handle is live, so the guard is claimed exactly while a handle is alive on every path |
| `LcdBinding.Lcd.constructor` | src/lib.rs:120-123 | the struct literal: the handle stores the given flags and marker and belongs to the given process |
| `LcdBinding.Process.InitMono` | src/lib.rs:117-125 | `init` with `LcdType::MONO`; on success a fresh live handle with marker Mono and those flags |
| `LcdBinding.Process.InitColor` | src/lib.rs:135-143 | `init` with `LcdType::COLOR`; on success a fresh live handle with marker Color and those flags |
| `LcdBinding.Process.InitEither` | src/lib.rs:153-161 | `init` with the union of both flags; on success a fresh live handle with marker Both and those flags |
| `LcdBinding.Lcd.IsConnected` | src/lib.rs:169-173 | queries `LogiLcdIsConnected` with exactly the stored flags, which name exactly the marker's capabilities, and returns its answer; guard and handle unchanged |
| `LcdBinding.Lcd.Update` | src/lib.rs:180-184 | one `LogiLcdUpdate` call, nothing else changes |
| `LcdBinding.Lcd.IsMonoButtonsPressed` | src/lib.rs:196-200 | mono handles only; one `LogiLcdIsButtonPressed` with the request masked to the mono buttons; returns the SDK's answer |
| `LcdBinding.Lcd.SetMonoBackground` | src/lib.rs:214-222 | mono handles only; requires exactly 160 × 43 bytes; one foreign call with the buffer; `Ok` if and only if the SDK answers true, else `MonoBackground` |
| `LcdBinding.Lcd.SetMonoText` | src/lib.rs:234-243 | mono handles only; requires `line < 4` unless the text holds U+0000; result `TextOutcome` with `MonoText`; the foreign call carries the line and the wire text and is skipped for a text with U+0000 |
| `LcdBinding.Lcd.IsColorButtonsPressed` | src/lib.rs:255-259 | colour handles only; one `LogiLcdIsButtonPressed` with the request masked to the colour buttons; returns the SDK's answer |
| `LcdBinding.Lcd.SetColorBackground` | src/lib.rs:261-269 | colour handles only; requires exactly width × height × bytes-per-pixel bytes; `Ok` if and only if the SDK answers true, else `ColorBackground` |
| `LcdBinding.Lcd.SetColorTitle` | src/lib.rs:271-284 | colour handles only; no line check; result `TextOutcome` with `ColorTitle`; the foreign call carries the wire text and the colour, and is skipped for a text with U+0000 |
| `LcdBinding.Lcd.SetColorText` | src/lib.rs:286-299 | colour handles only; requires `line < 4` unless the text holds U+0000; result `TextOutcome` with `ColorText`; the call is skipped for a text with U+0000 |
| `LcdBinding.Lcd.Drop` | src/lib.rs:302-309 | exactly one `LogiLcdShutdown`, then the guard is released and no handle is live, whatever earlier calls returned |
| `LcdBinding.DropThenReopen` | src/lib.rs:302-309 | after a failed text call and a drop, `init_color` may be called again, and it succeeds exactly when `init` would; the log is the text call, the shutdown, then the init calls |
| `LcdBinding.NulNameLocksOut` | src/lib.rs:89-106 | from an unclaimed guard, `init_mono` with a name holding U+0000 returns `NullCharacter` and leaves the guard claimed with no live handle |
| `LcdBinding.NulNameReleases` | src/lib.rs:102-104 | the corrected `init` on the same name returns `NullCharacter` with the guard released |

## Findings

| source | as written | input that shows it | evidently intended | confidence | as-written member | corrected member |
|---|---|---|---|---|---|---|
| src/lib.rs:90-104 | `init` claims the guard, then its `?` on `str_to_wchar` returns `NullCharacter` before the release at lines 102-104. The guard stays claimed with no handle alive, so no `Drop` can release it and every later `init_*` panics. | any `app_name` containing U+0000, e.g. `"app\0name"` | every failed `init` releases the guard, as lines 102-104 do for the two SDK failures | high; not executed | `LcdBinding.NulNameLocksOut` | `LcdBinding.Process.InitReleasing` |

The `init_*` entry points of the model keep the behaviour as written. `Process.Exclusive()`
(guard claimed exactly while a handle is alive) holds after the constructor and after `Drop`.
The corrected `init` releases the guard on every failure (`Process.InitReleasing`). Built
into an entry point, it keeps `Exclusive()` on every path, success included
(`Process.OpenReleasing`); on a NUL name see `NulNameReleases`. The code as written breaks
it (`NulNameLocksOut`).

## Left out

- The `logi_lcd_sys` functions are foreign. Their answers are method parameters, and the
  calls are recorded in a ghost log. What the SDK does with a call is outside the model.
- The SDK's pixel semantics (a byte of 128 or more is lit) are SDK behaviour and are not modelled.
- The `u32` encoding of `LcdType` (its bit values) belongs to the sys crate, which is not
  part of this model. A flag word is modelled as the set of device classes whose bit is set.
  `either()` is the union of `MONO` and `COLOR`.
- `LcdButton` and `BitFlags` belong to the sys crate. The model uses the vendor SDK's four
  mono and seven colour buttons. That each mask is contained in the request and in its own
  button set, and keeps every requested button of that set, holds for any two sets. That a
  mask holds no button of the other device relies on the mono and colour sets being
  disjoint, as they are in the SDK.
- The colour display size (320 × 240, 4 bytes per pixel) comes from the vendor SDK.
  The mono size 160 × 43 is the one documented at src/lib.rs:205.
- Panics (`assert!`, `assert_eq!`) are preconditions. The model says when one would fire,
  not what unwinding does.
- The atomic memory ordering of `INITIALIZED` and races between threads are left out.
  `swap` is one indivisible step.
- Rust's automatic drop at the end of scope is not modelled: a client calls `Drop` itself.
  Ownership (no use after drop, at most one drop) is enforced by `Lcd.Live()`.
- Rust keeps the fields of `Lcd` private (src/lib.rs:30-33), so only the `init_*` functions
  can build a handle. Dafny cannot hide the `Lcd` constructor or the `Process` fields, so
  in the model this is a discipline for clients. A client that builds a handle itself and
  claims the guard by hand gets a `Live()` handle with no `LogiLcdInit` in the log. Its flags
  still match its marker, because `Live()` requires `Process.Valid()`.
- Compile-time trait gating is modelled as preconditions on the marker, not as types.
- `Error::description` and `Display` only format fixed messages, so they are not modelled.
- The `as c_int` casts of the line number and the colour channels cannot truncate (line
  below 4, channels below 256), so they are identities in the model.
