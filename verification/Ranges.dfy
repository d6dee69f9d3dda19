/** Which part of a file a stream reads, and in which pieces. */
module Ranges {
  import opened Layout

  // --- Ranges ---

  /** An option as a caller may give it: absent, null, an integer, or anything else. */
  datatype Arg = Undefined | Null | Integer(value: int) | Other

  const MAX_SAFE_INTEGER := 0x1F_FFFF_FFFF_FFFF

  predicate IsOffset(a: Arg) {
    a.Integer? && 0 <= a.value <= MAX_SAFE_INTEGER
  }

  /** Both ends after defaulting, or nothing where the bounds are refused; a read without bounds never is. */
  function RangeOf(start: Arg, end: Arg, size: nat): Option<(int, int)> {
    var explicit := start != Undefined || end != Undefined;
    var s := if start.Undefined? || start.Null? then Integer(0) else start;
    var e := if end.Undefined? || end.Null? then Integer(size - 1) else end;
    if !IsOffset(s) || (end != Undefined && !IsOffset(e)) then None
    else if explicit && (s.value > e.value || e.value >= size) then None
    else Some((s.value, e.value))
  }

  /** The range is not given at all, or what is given and the defaults for the rest lie in the file in this order. */
  ghost predicate InFile(start: Arg, end: Arg, size: nat) {
    || (start.Undefined? && end.Undefined?)
    || (exists s, e ::
         && (start == Integer(s) || (s == 0 && (start.Undefined? || start.Null?)))
         && (end == Integer(e) || (e == size - 1 && (end.Undefined? || end.Null?)))
         && 0 <= s <= e < size && s < 9007199254740992 && (!end.Undefined? ==> e < 9007199254740992))
  }

  /** A range is accepted if and only if it is in the file, and then begins and ends where it says or else where the file does. */
  lemma RangeAccepted(start: Arg, end: Arg, size: nat)
    ensures RangeOf(start, end, size).Some? <==> InFile(start, end, size)
    ensures RangeOf(start, end, size).Some? ==> RangeOf(start, end, size).value.0 == if start.Integer? then start.value else 0
    ensures RangeOf(start, end, size).Some? ==> RangeOf(start, end, size).value.1 == if end.Integer? then end.value else size - 1
    ensures RangeOf(start, end, size).Some? ==>
      var (s, e) := RangeOf(start, end, size).value;
      0 <= s && e < size && s <= e + 1
  {
    if RangeOf(start, end, size).Some? {
      var (s, e) := RangeOf(start, end, size).value;
      assert start.Integer? ==> start == Integer(s);
      assert end.Integer? ==> end == Integer(e);
    }
  }

  // --- Chunks ---

  function Concat(chunks: seq<seq<byte>>): seq<byte> {
    if chunks == [] then [] else Concat(chunks[..|chunks| - 1]) + chunks[|chunks| - 1]
  }

  lemma ConcatMore(chunks: seq<seq<byte>>, chunk: seq<byte>)
    ensures Concat(chunks + [chunk]) == Concat(chunks) + chunk
  {
    assert (chunks + [chunk])[..|chunks|] == chunks;
  }

  const DEFAULT_HIGH_WATER_MARK: nat := 65536

  /** Where the chunk that begins at `offset` stops. */
  function StopOf(offset: nat, end: int, highWaterMark: nat): (stop: nat)
    requires highWaterMark > 0 && offset <= end
    ensures offset < stop <= end + 1 && stop - offset <= highWaterMark
    ensures stop == end + 1 || stop - offset == highWaterMark
  {
    if offset + highWaterMark < end + 1 then offset + highWaterMark else end + 1
  }
}
