/**
 * ShiftIndicatorBuffer: moves the values of an indicator buffer back by a number of bars. The
 * oldest values drop out and the freed slots at the end take an "empty" value. Buffer elements
 * are only moved, never computed, so their type is a parameter.
 */
module IndicatorBuffers {

  /**
   * The first `size` elements of s shifted back by `bars`: element i takes old element i + bars,
   * the last `bars` of them take emptyValue, and anything beyond `size` is kept.
   */
  function Shifted<T>(s: seq<T>, size: nat, bars: nat, emptyValue: T): (r: seq<T>)
    requires bars <= size <= |s|
    ensures |r| == |s|
    ensures r[size..] == s[size..]
  {
    s[bars..size] + seq(bars, _ => emptyValue) + s[size..]
  }

  lemma ShiftedAt<T>(s: seq<T>, size: nat, bars: nat, emptyValue: T)
    requires bars <= size <= |s|
    ensures |Shifted(s, size, bars, emptyValue)| == |s|
    ensures forall i :: 0 <= i < size - bars ==> Shifted(s, size, bars, emptyValue)[i] == s[i + bars]
    ensures forall i :: size - bars <= i < size ==> Shifted(s, size, bars, emptyValue)[i] == emptyValue
    ensures forall i :: size <= i < |s| ==> Shifted(s, size, bars, emptyValue)[i] == s[i]
  {
  }

  /** Shifting by no bars changes nothing. */
  lemma ShiftByZero<T>(s: seq<T>, size: nat, emptyValue: T)
    requires size <= |s|
    ensures Shifted(s, size, 0, emptyValue) == s
  {
    assert s[0..size] + s[size..] == s;
  }

  /** Two shifts by b1 and b2 bars are one shift by b1 + b2 bars. */
  lemma ShiftsCompose<T>(s: seq<T>, size: nat, b1: nat, b2: nat, emptyValue: T)
    requires b1 + b2 <= size <= |s|
    ensures Shifted(Shifted(s, size, b1, emptyValue), size, b2, emptyValue) == Shifted(s, size, b1 + b2, emptyValue)
  {
    var once := Shifted(s, size, b1, emptyValue);
    ShiftedAt(s, size, b1, emptyValue);
    ShiftedAt(once, size, b2, emptyValue);
    ShiftedAt(s, size, b1 + b2, emptyValue);
    var twice := Shifted(once, size, b2, emptyValue);
    var direct := Shifted(s, size, b1 + b2, emptyValue);
    assert |twice| == |direct|;
    forall i | 0 <= i < |s|
      ensures twice[i] == direct[i]
    {
      if i < size - b2 && i + b2 < size - b1 {
        assert twice[i] == once[i + b2] == s[i + b2 + b1];
      }
    }
  }

  /**
   * Errors for a buffer pointer below MIN_VALID_POINTER (null here; a real NULL buffer is the empty
   * array), then for a negative size or bar count; TRUE without change when either is 0; otherwise
   * the buffer is Shifted. The source moves the surviving values with one memory move and then fills
   * the tail; it does not check bars against the size, so a caller must not ask for more bars than
   * the buffer holds.
   */
  method ShiftIndicatorBuffer<T>(buffer: array?<T>, bufferSize: int, bars: int, emptyValue: T) returns (ok: bool)
    requires buffer != null ==> bufferSize <= buffer.Length
    requires bufferSize > 0 && bars > 0 ==> bars <= bufferSize
    modifies buffer
    ensures ok <==> buffer != null && bufferSize >= 0 && bars >= 0
    ensures ok && bufferSize > 0 && bars > 0 ==>
              buffer[..] == Shifted(old(buffer[..]), bufferSize, bars, emptyValue)
    ensures buffer != null && (!ok || bufferSize == 0 || bars == 0) ==> buffer[..] == old(buffer[..])
  {
    if buffer == null {
      return false;
    }
    if bufferSize < 0 || bars < 0 {
      return false;
    }
    if bufferSize == 0 || bars == 0 {
      return true;
    }
    ghost var before := buffer[..];
    // MoveMemory(&buffer[0], &buffer[bars], bufferSize - bars elements): the target lies below the
    // source, so a forward copy reads every source element before it is overwritten
    var i := 0;
    while i < bufferSize - bars
      invariant 0 <= i <= bufferSize - bars
      invariant forall k :: 0 <= k < i ==> buffer[k] == before[k + bars]
      invariant forall k :: i <= k < buffer.Length ==> buffer[k] == before[k]
    {
      buffer[i] := buffer[i + bars];
      i := i + 1;
    }
    while i < bufferSize
      invariant bufferSize - bars <= i <= bufferSize
      invariant forall k :: 0 <= k < bufferSize - bars ==> buffer[k] == before[k + bars]
      invariant forall k :: bufferSize - bars <= k < i ==> buffer[k] == emptyValue
      invariant forall k :: i <= k < buffer.Length ==> buffer[k] == before[k]
    {
      buffer[i] := emptyValue;
      i := i + 1;
    }
    ShiftedAt(before, bufferSize, bars, emptyValue);
    return true;
  }
}
