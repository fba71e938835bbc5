/** Failure-carrying results shared by every stage of the decruncher.
    The source stops only on a wrong type identifier or on an exception
    caught by its one `catch(...)`; after a short stream read or a read past
    the end of a buffer it goes on with unspecified values. The model turns
    each of these silent failures into a named error. */
module Errors {

  datatype Option<+T> = None | Some(value: T)

  /** The ways decoding an archive can stop. */
  datatype Error =
    | BadMagic            // the first 28 bytes are not the archive type id
    | TruncatedHeader     // fewer than the three header u16 fields remain
    | TruncatedDirectory  // a 24-byte directory entry runs past the end
    | OutOfRange          // an entry's offset + size runs past the end
    | TruncatedSample     // a sample count or sample record runs past its item
    | EmptyAdpcm          // an ADPCM record of data size 0 (output size -1)

  datatype Result<+T> = Ok(value: T) | Err(error: Error)

  /** `xs` in front of a successful list; a failure passes through. */
  function Prepend<T>(xs: seq<T>, r: Result<seq<T>>): Result<seq<T>>
  {
    match r
    case Ok(rest) => Ok(xs + rest)
    case Err(e) => Err(e)
  }

  /** Prepending nothing leaves a result as it is. */
  lemma PrependNothing<T>(r: Result<seq<T>>)
    ensures Prepend([], r) == r
  {
    if r.Ok? {
      assert [] + r.value == r.value;
    }
  }

  /** Prepending twice is prepending the two lists joined. */
  lemma PrependTwice<T>(xs: seq<T>, ys: seq<T>, r: Result<seq<T>>)
    ensures Prepend(xs, Prepend(ys, r)) == Prepend(xs + ys, r)
  {
    if r.Ok? {
      assert xs + (ys + r.value) == (xs + ys) + r.value;
    }
  }
}
