/**
 * The few pieces of the Rust standard library that the KZG blend crate's
 * signatures are built from: bytes, fixed-size byte arrays, `Option` and
 * `Result` (usable with `:-` in the way Rust code uses `?`), and the
 * `OnceLock` cell behind every process-wide settings cache.
 */
module RustStd {

  /** `u8`. */
  newtype Byte = b: int | 0 <= b < 0x100

  /** `[u8; 48]`: a compressed G1 point (commitment or proof). */
  type Bytes48 = s: seq<Byte> | |s| == 48 witness seq(48, _ => 0 as Byte)

  /** `[u8; 32]`: a SHA-256 digest, `B256`. */
  type Bytes32 = s: seq<Byte> | |s| == 32 witness seq(32, _ => 0 as Byte)

  datatype Option<+T> = None | Some(value: T)

  /** Rust's `Result<T, E>`. */
  datatype Result<+T, +E> = Ok(value: T) | Err(error: E) {

    predicate IsFailure() {
      Err?
    }

    function PropagateFailure<U>(): Result<U, E>
      requires Err?
    {
      Err(error)
    }

    function Extract(): T
      requires Ok?
    {
      value
    }

    /** Rust's `Result::map_err`. */
    function MapErr<F>(f: E -> F): (r: Result<T, F>)
      ensures Ok? <==> r.Ok?
      ensures Ok? ==> r.value == value
      ensures Err? ==> r.error == f(error)
    {
      match this
      case Ok(v) => Ok(v)
      case Err(e) => Err(f(e))
    }
  }

  /**
   * One step of `OnceLock::get_or_init`: an empty cell is filled with the
   * outcome of the initialiser, a filled cell keeps what it holds.
   */
  function Fill<T>(cell: Option<T>, init: T): (filled: Option<T>)
    ensures filled.Some?
    ensures cell.Some? ==> filled == cell
    ensures cell.None? ==> filled == Some(init)
  {
    if cell.Some? then cell else Some(init)
  }

  /**
   * The values handed out by successive `get_or_init` calls on a cell that
   * starts as `cell`, the i-th call being given initialiser outcome `inits[i]`.
   */
  function Outcomes<T>(cell: Option<T>, inits: seq<T>): (outs: seq<T>)
    ensures |outs| == |inits|
    decreases |inits|
  {
    if inits == [] then []
    else
      var next := Fill(cell, inits[0]);
      [next.value] + Outcomes(next, inits[1..])
  }

  /**
   * Sticky: every call hands out what the cell held before the first call,
   * or, if it was empty, what the FIRST call's initialiser produced; no later
   * initialiser is ever used, so a failure stored by the first call is never
   * retried.
   */
  lemma {:induction false} OutcomesAreSticky<T>(cell: Option<T>, inits: seq<T>)
    requires inits != []
    ensures forall i | 0 <= i < |inits| ::
      Outcomes(cell, inits)[i] == if cell.Some? then cell.value else inits[0]
    decreases |inits|
  {
    var next := Fill(cell, inits[0]);
    if |inits| > 1 {
      OutcomesAreSticky(next, inits[1..]);
    }
  }

  /**
   * `std::sync::OnceLock<T>`, used sequentially: the cell starts empty, the
   * first `GetOrInit` runs the initialiser and stores its value, and every
   * later call returns the stored value without running its initialiser.
   */
  class OnceLock<T> {
    var value: Option<T>

    /** `OnceLock::new()`. */
    constructor ()
      ensures value == None
    {
      value := None;
    }

    /** `OnceLock::get_or_init(init)`. */
    method GetOrInit(init: () -> T) returns (v: T)
      modifies this
      ensures value == Fill(old(value), init())
      ensures value == Some(v)
      ensures old(value).Some? ==> v == old(value).value
    {
      if value.None? {
        value := Some(init());
      }
      v := value.value;
    }
  }
}
