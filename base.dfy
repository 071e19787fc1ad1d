/** Values shared by every part of the model: optional values, results with an
    error, the trace context carried by a Go `context.Context`, and the 64-bit
    integer ranges of the Go types that the model keeps. */
module Base {

  datatype Option<+T> = None | Some(value: T)

  /** A Go error value, compared by its text. */
  datatype Error = Error(message: string)

  /** The `(value, error)` pair Go functions return: exactly one side is meaningful. */
  datatype Result<+T> = Ok(value: T) | Err(error: Error)

  /** How a call into code the model does not contain ended: it returned a
      value, or it panicked and the panic is unwinding through the caller. */
  datatype Completion<+T> = Returned(value: T) | Panicked(panicValue: string)

  /** Identity of one span, as assigned by the tracer. */
  type SpanId = nat

  /** A `context.Context` as far as tracing can tell: the span it carries, if any. */
  datatype Context = Context(span: Option<SpanId>)

  /** `context.Background()`: carries no span. */
  const Background: Context := Context(None)

  const Int64Min: int := -0x8000_0000_0000_0000
  const Int64Max: int := 0x7fff_ffff_ffff_ffff
  const Uint64Modulus: int := 0x1_0000_0000_0000_0000

  /** The values of Go's `uint64`. */
  type Uint64 = x: int | 0 <= x < Uint64Modulus

  predicate InInt64(x: int) {
    Int64Min <= x <= Int64Max
  }

  /** Go's conversion `int64(x)` of a `uint64`: keeps the low 64 bits and reads
      them as two's complement, so values from 2^63 up wrap to negatives. */
  function ToInt64(x: Uint64): (r: int)
    ensures InInt64(r)
    ensures (r - x) % Uint64Modulus == 0
    ensures x <= Int64Max ==> r == x
    ensures x > Int64Max ==> r < 0
  {
    if x <= Int64Max then x else x - Uint64Modulus
  }
}
