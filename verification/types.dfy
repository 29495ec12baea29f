/** Value types shared by the orientation-rewrite model: pixel formats,
    frame estimates, error kinds and the Result wrapper, plus the 32-bit
    and pointer-width integer conversions the frame sizes go through. */
module Types {

  datatype Option<T> = None | Some(value: T)

  /** Why a build, estimate, flatten or execute step was abandoned. */
  datatype ErrorKind =
    | NodeParamsMismatch      // a descriptor received the wrong parameter payload
    | UnknownUpstreamEstimate // transpose or apply_orientation flattened before its input was estimated
    | InvalidNodeConnections  // a canvas-consuming node has no Canvas edge
    | FormatMismatch          // input and canvas pixel formats differ
    | AliasedBitmaps          // input and canvas are the same bitmap
    | TransposeFailed         // the native transpose reported failure
    | CError                  // a native flip reported failure
    | NotExecutable           // a node without an execute step reached execution

  /** The outcome of a fallible step; `:-` propagates the first error. */
  datatype Result<T> = Ok(value: T) | Err(error: ErrorKind) {
    predicate IsFailure() {
      Err?
    }

    function PropagateFailure<U>(): Result<U>
      requires Err?
    {
      Err(error)
    }

    function Extract(): T
      requires Ok?
    {
      value
    }
  }

  /** Pixel layouts of bitmaps and canvases. The frame-info format and the
      schema format of a canvas request are one enumeration here. */
  datatype PixelFormat = Bgr24 | Bgra32 | Bgr32 | Gray8

  /** Fill colour of a canvas request. */
  datatype Color = Transparent | Black | Srgb(hex: string)

  const TWO_32: int := 0x1_0000_0000
  const TWO_64: int := 0x1_0000_0000_0000_0000

  /** Frame sizes are signed 32-bit integers. */
  type i32 = x: int | -0x8000_0000 <= x < 0x8000_0000

  /** `x as usize` on a 64-bit target: sign extension, then reinterpretation
      as unsigned, so a negative size wraps to a huge one. */
  function AsUsize(x: i32): (n: nat)
    ensures n < TWO_64 && (n - x) % TWO_64 == 0
  {
    if x >= 0 then x else x + TWO_64
  }

  /** `n as i32`: keep the low 32 bits and read them as two's complement. */
  function TruncI32(n: nat): (x: i32)
    ensures (x - n) % TWO_32 == 0
  {
    var low := n % TWO_32;
    if low >= 0x8000_0000 then low - TWO_32 else low
  }

  /** Widening a frame size to usize and truncating it back gives the same
      size, for every 32-bit value including negative ones. */
  lemma {:induction false} TruncAsUsizeRoundTrip(x: i32)
    ensures TruncI32(AsUsize(x)) == x
  {
    if x < 0 {
      assert AsUsize(x) == (x + TWO_32) + (TWO_32 - 1) * TWO_32;
      assert AsUsize(x) % TWO_32 == x + TWO_32;
    } else {
      assert AsUsize(x) % TWO_32 == x;
    }
  }

  /** A frame's shape: width, height, pixel format, and whether its alpha
      channel carries information. */
  datatype FrameInfo = FrameInfo(w: i32, h: i32, fmt: PixelFormat, alphaMeaningful: bool)

  /** What is known about a node's output before any pixel exists. */
  datatype FrameEstimate = Unknown | Known(info: FrameInfo)

  /** Two estimates agree on width, height and pixel format (alpha aside). */
  predicate SameShape(a: FrameEstimate, b: FrameEstimate) {
    match (a, b)
    case (Unknown, Unknown) => true
    case (Known(x), Known(y)) => x.w == y.w && x.h == y.h && x.fmt == y.fmt
    case _ => false
  }

  /** Two estimation outcomes fail the same way or agree on shape. */
  predicate SameOutcome(a: Result<FrameEstimate>, b: Result<FrameEstimate>) {
    match (a, b)
    case (Err(e1), Err(e2)) => e1 == e2
    case (Ok(x), Ok(y)) => SameShape(x, y)
    case _ => false
  }
}
