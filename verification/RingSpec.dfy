/** The error register of the ring buffer, shared by the buffer object and by the blocking protocol. */
module RingSpec {
  import opened Basics

  newtype Byte = x: int | 0 <= x < 256

  datatype Error =
    | ErrIsEmpty | ErrIsFull | ErrAcquireLock | ErrTooMuchDataToWrite | ErrIsNotEmpty   // transient: never stored
    | ErrWriteOnClosed                                                                  // answers a write after EOF
    | EOF
    | Other(code: nat)

  type Outcome = Option<Error>

  predicate Transient(e: Error) {
    e.ErrIsEmpty? || e.ErrIsFull? || e.ErrAcquireLock? || e.ErrTooMuchDataToWrite? || e.ErrIsNotEmpty?
  }

  /** A stored error other than EOF is final. */
  predicate Final(reg: Outcome) {
    reg.Some? && reg != Some(EOF)
  }

  /** setErr: the new register, whether it was written (and so waiting calls are woken), and the result. */
  function SetErr(reg: Outcome, e: Outcome): (t: (Outcome, bool, Outcome)) {
    if Final(reg) then (reg, false, reg)
    else if e.None? || Transient(e.value) then (reg, false, e)
    else (e, true, e)
  }

  /** readErr: EOF is withheld while there are unread bytes. */
  function ReadErr(reg: Outcome, empty: bool): Outcome {
    if reg == Some(EOF) then (if empty then reg else None) else reg
  }

  /** What a write finds on entry. */
  function WriteRefused(reg: Outcome): Outcome {
    if reg == Some(EOF) then Some(ErrWriteOnClosed) else reg
  }

  /** The register only moves from nil to EOF to a final error. */
  predicate Advances(reg: Outcome, reg': Outcome) {
    reg' == reg || (reg'.Some? && !Final(reg) && !Transient(reg'.value))
  }

  function Min(a: nat, b: nat): nat {
    if a < b then a else b
  }
}
