/** Values shared by both configuration builders: Java's nullable references
    and thrown exceptions, the fixed-width integers the builders store, and the
    "last write wins" reading of a chain of fluent setter calls. */
module Common {

  /** A Java reference that may be null, or a `java.util.Optional`. */
  datatype Option<+T> = None | Some(value: T) {
    /** `Optional.orElse`. */
    function GetOr(default: T): T {
      match this
      case Some(v) => v
      case None => default
    }
  }

  /** A call that either returns `value` or throws `error`. */
  datatype Result<+T, +E> = Ok(value: T) | Err(error: E)

  /** Java's `int`. */
  type Int32 = x: int | -0x8000_0000 <= x < 0x8000_0000

  /** Teku's `UInt64`. */
  type UInt64 = x: int | 0 <= x < 0x1_0000_0000_0000_0000

  /** No call in `calls` writes the field that `written` extracts. */
  predicate NoWrite<C, T>(calls: seq<C>, written: C -> Option<T>) {
    forall i :: 0 <= i < |calls| ==> written(calls[i]).None?
  }

  /** Call `i` writes the value `v`, and no later call writes the field again. */
  ghost predicate IsLastWrite<C, T>(calls: seq<C>, written: C -> Option<T>, i: int, v: T) {
    && 0 <= i < |calls|
    && written(calls[i]) == Some(v)
    && forall j :: i < j < |calls| ==> written(calls[j]).None?
  }

  /** The value a field holds after `calls`, when `written(c)` is what call `c`
      stores in that field (None: the call leaves the field alone) and `default`
      is what the field held before. Scans from the last call backwards. */
  function LastWritten<C, T>(calls: seq<C>, written: C -> Option<T>, default: T): (v: T)
    ensures NoWrite(calls, written) ==> v == default
    ensures !NoWrite(calls, written) ==> exists i :: IsLastWrite(calls, written, i, v)
    decreases |calls|
  {
    if calls == [] then default
    else
      var n := |calls| - 1;
      match written(calls[n])
      case Some(w) =>
        assert IsLastWrite(calls, written, n, w);
        w
      case None =>
        var v := LastWritten(calls[..n], written, default);
        assert !NoWrite(calls, written) ==> exists i :: IsLastWrite(calls, written, i, v) by {
          assert forall j :: 0 <= j < n ==> calls[..n][j] == calls[j];
          if !NoWrite(calls, written) {
            var i :| IsLastWrite(calls[..n], written, i, v);
            assert IsLastWrite(calls, written, i, v);
          }
        }
        v
  }

  /** One more call after `calls`: either it writes the field, or the field
      keeps what `calls` left there. */
  lemma LastWrittenSnoc<C, T>(calls: seq<C>, c: C, written: C -> Option<T>, default: T)
    ensures LastWritten(calls + [c], written, default)
         == written(c).GetOr(LastWritten(calls, written, default))
  {
  }

  /** A field has only one last write. */
  lemma LastWriteUnique<C, T>(calls: seq<C>, written: C -> Option<T>, i: int, v: T, k: int, w: T)
    requires IsLastWrite(calls, written, i, v)
    requires IsLastWrite(calls, written, k, w)
    ensures i == k && v == w
  {
  }
}
