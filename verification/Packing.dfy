/**
 * Array parameters packed into one strided buffer: bind_w_var_char_array and
 * bind_var_binary_array of cpp/src/core/bound_datum.cpp, with fresh storage.
 *
 * Element i starts i strides into the buffer; an indicator says how many bytes of the slot
 * are used, or that the element is null.  The database driver reads the parameter back
 * with the same stride and indicators, which is what Unpacked models.
 */
module Packing {
  import opened Wrappers
  import opened Arithmetic

  type Byte = x: int | 0 <= x < 256
  type Unit = x: int | 0 <= x < 65536

  /** A string as V8 can hold it: at most 2^29 - 24 UTF-16 units. */
  type JsString = s: seq<Unit> | |s| <= 536870888

  /** An element of an array of buffers. */
  datatype Element = Null | NotBuffer | Buffer(data: seq<Byte>)

  datatype SqlType = UnknownType | WVarChar | WLongVarChar | VarBinary | LongVarBinary

  /** sizeof of a buffer cell. */
  type Width = w: int | w == 1 || w == 2 witness 1

  const SQL_NULL_DATA := -1

  function Zeros<T>(n: nat, zero: T): seq<T> {
    seq(n, _ => zero)
  }

  // ---------------------------------------------------------------- slots of a strided buffer

  lemma Product(a: nat, b: nat)
    ensures a * b >= 0
  {
  }

  lemma SlotFits(i: nat, n: nat, stride: nat)
    requires i < n
    ensures 0 <= i * stride && i * stride + stride <= n * stride
  {
    var m := n - 1;
    assert (m + 1) * stride == m * stride + stride;
    if i < m { SlotFits(i, m, stride); } else { Product(i, stride); }
  }

  function Slot<T>(storage: seq<T>, stride: nat, n: nat, i: nat): (slot: seq<T>)
    requires |storage| == n * stride && i < n
    ensures |slot| == stride
  {
    SlotFits(i, n, stride);
    storage[i * stride..i * stride + stride]
  }

  /** No two slots share a cell. */
  lemma SlotsNeverOverlap(i: nat, j: nat, stride: nat, a: int, b: int)
    requires i != j && 0 <= a < stride && 0 <= b < stride
    ensures i * stride + a != j * stride + b
  {
    if i < j { SlotFits(i, j, stride); } else { SlotFits(j, i, stride); }
  }

  /** Slot i holds the element, followed by zeros, and its indicator says so. */
  ghost predicate SlotHolds<T>(
    storage: seq<T>, indvec: seq<int>, stride: nat, size: Width, zero: T, i: nat, element: Option<seq<T>>)
    requires |storage| == |indvec| * stride && i < |indvec|
  {
    match element
    case None => indvec[i] == SQL_NULL_DATA && Slot(storage, stride, |indvec|, i) == Zeros(stride, zero)
    case Some(s) =>
      && indvec[i] == |s| * size && |s| <= stride
      && Slot(storage, stride, |indvec|, i) == s + Zeros(stride - |s|, zero)
  }

  /** What the receiver makes of slot i: nothing for the null indicator, else the bytes it counts. */
  function Received<T>(storage: seq<T>, indvec: seq<int>, stride: nat, size: Width, i: nat): Option<seq<T>>
    requires |storage| == |indvec| * stride && i < |indvec|
  {
    if 0 <= indvec[i] && indvec[i] / size <= stride
    then Some(Slot(storage, stride, |indvec|, i)[..indvec[i] / size])
    else None
  }

  function Unpacked<T>(storage: seq<T>, indvec: seq<int>, stride: nat, size: Width): seq<Option<seq<T>>>
    requires |storage| == |indvec| * stride
  {
    seq(|indvec|, i requires 0 <= i < |indvec| => Received(storage, indvec, stride, size, i))
  }

  /** A buffer whose slots hold the elements gives them back, null apart from empty. */
  lemma PackedUnpacks<T>(
    storage: seq<T>, indvec: seq<int>, stride: nat, size: Width, zero: T, elements: seq<Option<seq<T>>>)
    requires |storage| == |indvec| * stride && |indvec| == |elements|
    requires forall i | 0 <= i < |elements| :: SlotHolds(storage, indvec, stride, size, zero, i, elements[i])
    ensures Unpacked(storage, indvec, stride, size) == elements
  {
    forall i | 0 <= i < |elements|
      ensures Received(storage, indvec, stride, size, i) == elements[i]
    {
      SlotReceived(storage, indvec, stride, size, zero, i, elements[i]);
    }
  }

  lemma SlotReceived<T>(
    storage: seq<T>, indvec: seq<int>, stride: nat, size: Width, zero: T, i: nat, element: Option<seq<T>>)
    requires |storage| == |indvec| * stride && i < |indvec|
    requires SlotHolds(storage, indvec, stride, size, zero, i, element)
    ensures Received(storage, indvec, stride, size, i) == element
  {
    if element.Some? {
      var s := element.value;
      assert indvec[i] == if size == 1 then |s| else |s| * 2;
      assert (s + Zeros(stride - |s|, zero))[..|s|] == s;
    }
  }

  /** Only one array of elements can have been packed into a buffer. */
  lemma PackingIsInjective<T>(
    storage: seq<T>, indvec: seq<int>, stride: nat, size: Width, zero: T,
    elements: seq<Option<seq<T>>>, others: seq<Option<seq<T>>>)
    requires |storage| == |indvec| * stride && |indvec| == |elements| == |others|
    requires forall i | 0 <= i < |elements| :: SlotHolds(storage, indvec, stride, size, zero, i, elements[i])
    requires forall i | 0 <= i < |others| :: SlotHolds(storage, indvec, stride, size, zero, i, others[i])
    ensures elements == others
  {
    PackedUnpacks(storage, indvec, stride, size, zero, elements);
    PackedUnpacks(storage, indvec, stride, size, zero, others);
  }

  // ---------------------------------------------------------------- the packing loops

  /** After `done` elements: their slots are filled, and the others are still zero. */
  ghost predicate PackedUpTo<T>(
    storage: seq<T>, indvec: seq<int>, stride: nat, size: Width, zero: T, elements: seq<Option<seq<T>>>, done: nat)
  {
    && |storage| == |indvec| * stride && |indvec| == |elements| && done <= |elements|
    && (forall i | 0 <= i < done :: SlotHolds(storage, indvec, stride, size, zero, i, elements[i]))
    && (forall i | done <= i < |elements| :: Slot(storage, stride, |indvec|, i) == Zeros(stride, zero))
  }

  /** A copy into slot `at` changes that slot only. */
  lemma OtherSlotsStay<T>(before: seq<T>, after: seq<T>, stride: nat, n: nat, at: nat, data: seq<T>, i: nat)
    requires |before| == |after| == n * stride && at < n && i < n && i != at && |data| <= stride
    requires 0 <= at * stride && at * stride + |data| <= |before|
    requires after == before[..at * stride] + data + before[at * stride + |data|..]
    ensures Slot(after, stride, n, i) == Slot(before, stride, n, i)
  {
    SlotFits(i, n, stride);
    if i < at { SlotFits(i, at, stride); } else { SlotFits(at, i, stride); }
  }

  lemma WrittenSlot<T>(before: seq<T>, after: seq<T>, stride: nat, n: nat, at: nat, data: seq<T>, zero: T)
    requires |before| == |after| == n * stride && at < n && |data| <= stride
    requires 0 <= at * stride && at * stride + |data| <= |before|
    requires after == before[..at * stride] + data + before[at * stride + |data|..]
    requires Slot(before, stride, n, at) == Zeros(stride, zero)
    ensures Slot(after, stride, n, at) == data + Zeros(stride - |data|, zero)
  {
    SlotFits(at, n, stride);
    var slot := Slot(after, stride, n, at);
    assert slot[..|data|] == data;
    assert slot[|data|..] == Slot(before, stride, n, at)[|data|..];
  }

  lemma PackedNull<T>(
    storage: seq<T>, indvec: seq<int>, stride: nat, size: Width, zero: T, elements: seq<Option<seq<T>>>, at: nat)
    requires PackedUpTo(storage, indvec, stride, size, zero, elements, at)
    requires at < |elements| && elements[at] == None
    ensures PackedUpTo(storage, indvec[at := SQL_NULL_DATA], stride, size, zero, elements, at + 1)
  {
    var indvec' := indvec[at := SQL_NULL_DATA];
    forall i | 0 <= i < at ensures SlotHolds(storage, indvec', stride, size, zero, i, elements[i]) {
      assert SlotHolds(storage, indvec, stride, size, zero, i, elements[i]);
    }
  }

  lemma PackedValue<T>(
    before: seq<T>, after: seq<T>, indvec: seq<int>, stride: nat, size: Width, zero: T,
    elements: seq<Option<seq<T>>>, at: nat, data: seq<T>)
    requires PackedUpTo(before, indvec, stride, size, zero, elements, at)
    requires at < |elements| && elements[at] == Some(data) && |data| <= stride && |after| == |before|
    requires 0 <= at * stride && at * stride + |data| <= |before|
    requires after == before[..at * stride] + data + before[at * stride + |data|..]
    ensures PackedUpTo(after, indvec[at := |data| * size], stride, size, zero, elements, at + 1)
  {
    var n, indvec' := |indvec|, indvec[at := |data| * size];
    WrittenSlot(before, after, stride, n, at, data, zero);
    forall i | 0 <= i < at ensures SlotHolds(after, indvec', stride, size, zero, i, elements[i]) {
      assert SlotHolds(before, indvec, stride, size, zero, i, elements[i]);
      OtherSlotsStay(before, after, stride, n, at, data, i);
    }
    forall i | at < i < n ensures Slot(after, stride, n, i) == Zeros(stride, zero) {
      OtherSlotsStay(before, after, stride, n, at, data, i);
    }
  }

  lemma StartsPacked<T>(
    storage: seq<T>, indvec: seq<int>, stride: nat, size: Width, zero: T, elements: seq<Option<seq<T>>>)
    requires |storage| == |indvec| * stride && |indvec| == |elements|
    requires forall k | 0 <= k < |storage| :: storage[k] == zero
    ensures PackedUpTo(storage, indvec, stride, size, zero, elements, 0)
  {
    forall i | 0 <= i < |elements| ensures Slot(storage, stride, |indvec|, i) == Zeros(stride, zero) {
      SlotFits(i, |indvec|, stride);
    }
  }

  /** memcpy: every write must be inside the destination. */
  method MemCopy<T>(dest: array<T>, at: nat, src: seq<T>)
    requires at + |src| <= dest.Length
    modifies dest
    ensures dest[..] == old(dest[..])[..at] + src + old(dest[..])[at + |src|..]
  {
    for k := 0 to |src|
      invariant dest[..] == old(dest[..])[..at] + src[..k] + old(dest[..])[at + k..]
    {
      dest[at + k] := src[k];
    }
  }

  // ---------------------------------------------------------------- the longest element

  function Longest<T>(elements: seq<Option<seq<T>>>): (m: nat)
    ensures forall i | 0 <= i < |elements| && elements[i].Some? :: |elements[i].value| <= m
    ensures m > 0 ==> exists i | 0 <= i < |elements| :: elements[i].Some? && |elements[i].value| == m
  {
    if elements == [] then 0
    else
      var rest := Longest(elements[1..]);
      assert forall i | 1 <= i < |elements| :: elements[i] == elements[1..][i - 1];
      if elements[0].Some? && |elements[0].value| > rest then |elements[0].value| else rest
  }

  lemma LongestIs<T>(elements: seq<Option<seq<T>>>, m: nat)
    requires forall i | 0 <= i < |elements| && elements[i].Some? :: |elements[i].value| <= m
    requires m > 0 ==> exists i | 0 <= i < |elements| :: elements[i].Some? && |elements[i].value| == m
    ensures m == Longest(elements)
  {
  }

  function Payload(e: Element): Option<seq<Byte>> {
    if e.Buffer? then Some(e.data) else None
  }

  function Payloads(p: seq<Element>): seq<Option<seq<Byte>>> {
    seq(|p|, i requires 0 <= i < |p| => Payload(p[i]))
  }

  method GetMaxStrLen(p: seq<Option<JsString>>) returns (strLen: nat)
    ensures strLen == Longest(p) <= 536870888
  {
    strLen := 0;
    for i := 0 to |p|
      invariant strLen <= 536870888
      invariant forall k | 0 <= k < i && p[k].Some? :: |p[k].value| <= strLen
      invariant strLen > 0 ==> exists k | 0 <= k < i :: p[k].Some? && |p[k].value| == strLen
    {
      if p[i].None? {
        continue;
      }
      if |p[i].value| > strLen {
        strLen := |p[i].value|;
      }
    }
    LongestIs(p, strLen);
  }

  method GetMaxObjectLen(p: seq<Element>) returns (objLen: nat)
    ensures objLen == Longest(Payloads(p))
  {
    objLen := 0;
    for i := 0 to |p|
      invariant forall k | 0 <= k < i && p[k].Buffer? :: |p[k].data| <= objLen
      invariant objLen > 0 ==> exists k | 0 <= k < i :: p[k].Buffer? && |p[k].data| == objLen
    {
      if !p[i].Buffer? {
        continue;
      }
      if |p[i].data| > objLen {
        objLen := |p[i].data|;
      }
    }
    if objLen > 0 {
      var k :| 0 <= k < |p| && p[k].Buffer? && |p[k].data| == objLen;
      assert Payloads(p)[k] == Some(p[k].data);
    }
    LongestIs(Payloads(p), objLen);
  }

  // ---------------------------------------------------------------- the bound parameter

  class BoundDatum {
    var sqlType: SqlType
    var bufferLen: nat      // bytes from one slot to the next
    var paramSize: nat      // column size
    var maxLength: nat      // declared length in bytes, or 0
    var indvec: array<int>
    var uint16vec: array<Unit>
    var charvec: array<Byte>

    constructor (paramSize: nat, maxLength: nat)
      ensures this.paramSize == paramSize && this.maxLength == maxLength
    {
      this.paramSize, this.maxLength := paramSize, maxLength;
      sqlType, bufferLen := UnknownType, 0;
      indvec, uint16vec, charvec := new int[0], new Unit[0], new Byte[0];
    }

    method ReserveWVarCharArray(maxStrLen: nat, arrayLen: nat)
      requires maxStrLen >= 1
      modifies this
      ensures fresh(indvec) && indvec.Length == arrayLen
      ensures fresh(uint16vec) && uint16vec.Length == arrayLen * maxStrLen
      ensures forall k | 0 <= k < uint16vec.Length :: uint16vec[k] == 0
      ensures bufferLen == maxStrLen * 2
      ensures sqlType == if maxStrLen > 4000 then WLongVarChar else WVarChar
      ensures maxLength == old(maxLength)
      ensures paramSize == if maxLength > 0 then maxLength / 2
                           else if old(paramSize) > 0 then old(paramSize)
                           else maxStrLen
    {
      sqlType := if maxStrLen > 4000 then WLongVarChar else WVarChar;
      indvec := new int[arrayLen](_ => 0);
      uint16vec := new Unit[arrayLen * maxStrLen](_ => 0);
      bufferLen := maxStrLen * 2;
      if maxLength > 0 {
        paramSize := maxLength / 2;
      } else if paramSize <= 0 {
        if maxStrLen > 4000 {
          paramSize := maxStrLen;
        } else {
          paramSize := Max(bufferLen / 2, 1);
        }
      }
    }

    /** What the driver receives is what was bound, and every element fits a slot. */
    method BindWVarCharArray(p: seq<Option<JsString>>)
      modifies this
      ensures fresh(indvec) && fresh(uint16vec)
      ensures (var stride := Max(1, Longest(p));
               && bufferLen == stride * 2
               && indvec.Length == |p| && uint16vec.Length == |p| * stride
               && Unpacked(uint16vec[..], indvec[..], stride, 2) == p
               && Written(uint16vec[..], indvec[..], stride, 2, p)
               && sqlType == (if stride > 4000 then WLongVarChar else WVarChar)
               && maxLength == old(maxLength)
               && paramSize == if old(maxLength) > 0 then old(maxLength) / 2
                               else if old(paramSize) > 0 then old(paramSize)
                               else stride)
    {
      hide PackedUpTo, Unpacked, Longest, Written;
      var longest := GetMaxStrLen(p);
      var maxStrLen := Max(1, longest);
      ReserveWVarCharArray(maxStrLen, |p|);
      StartsPacked(uint16vec[..], indvec[..], maxStrLen, 2, 0, p);
      for i := 0 to |p|
        invariant fresh(indvec) && fresh(uint16vec)
        invariant indvec.Length == |p| && uint16vec.Length == |p| * maxStrLen
        invariant bufferLen == maxStrLen * 2 && sqlType == if maxStrLen > 4000 then WLongVarChar else WVarChar
        invariant maxLength == old(maxLength)
        invariant paramSize == if old(maxLength) > 0 then old(maxLength) / 2
                               else if old(paramSize) > 0 then old(paramSize)
                               else maxStrLen
        invariant PackedUpTo(uint16vec[..], indvec[..], maxStrLen, 2, 0, p, i)
      {
        ghost var before, ind := uint16vec[..], indvec[..];
        SlotFits(i, |p|, maxStrLen);
        indvec[i] := SQL_NULL_DATA;
        if p[i].None? {
          PackedNull(before, ind, maxStrLen, 2, 0, p, i);
          assert indvec[..] == ind[i := SQL_NULL_DATA];
          continue;
        }
        var str := p[i].value;
        indvec[i] := |str| * 2;
        assert indvec[..] == ind[i := |str| * 2];
        MemCopy(uint16vec, i * maxStrLen, str);
        PackedValue(before, uint16vec[..], ind, maxStrLen, 2, 0, p, i, str);
      }
      PackedGives(uint16vec[..], indvec[..], maxStrLen, 2, 0, p);
    }

    method ReserveVarBinaryArray(maxObjLen: nat, arrayLen: nat)
      modifies this
      ensures fresh(indvec) && indvec.Length == arrayLen
      ensures fresh(charvec) && charvec.Length == arrayLen * maxObjLen
      ensures forall k | 0 <= k < charvec.Length :: charvec[k] == 0
      ensures bufferLen == paramSize == maxObjLen
      ensures sqlType == if maxObjLen > 2000 then LongVarBinary else VarBinary
    {
      sqlType := if maxObjLen > 2000 then LongVarBinary else VarBinary;
      charvec := new Byte[arrayLen * maxObjLen](_ => 0);
      indvec := new int[arrayLen](_ => 0);
      bufferLen, paramSize := maxObjLen, maxObjLen;
    }

    /** The same for buffers; the stride is zero when every element is null or empty. */
    method BindVarBinaryArray(p: seq<Element>)
      modifies this
      ensures fresh(indvec) && fresh(charvec)
      ensures (var stride := Longest(Payloads(p));
               && bufferLen == paramSize == stride
               && indvec.Length == |p| && charvec.Length == |p| * stride
               && Unpacked(charvec[..], indvec[..], stride, 1) == Payloads(p)
               && Written(charvec[..], indvec[..], stride, 1, Payloads(p))
               && sqlType == if stride > 2000 then LongVarBinary else VarBinary)
    {
      hide PackedUpTo, Unpacked, Longest, Payloads, Written;
      ghost var elements := Payloads(p);
      PayloadsAre(p);
      var maxObjLen := GetMaxObjectLen(p);
      ReserveVarBinaryArray(maxObjLen, |p|);
      StartsPacked(charvec[..], indvec[..], maxObjLen, 1, 0, elements);
      for i := 0 to |p|
        invariant fresh(indvec) && fresh(charvec)
        invariant indvec.Length == |p| && charvec.Length == |p| * maxObjLen
        invariant bufferLen == paramSize == maxObjLen
        invariant sqlType == if maxObjLen > 2000 then LongVarBinary else VarBinary
        invariant PackedUpTo(charvec[..], indvec[..], maxObjLen, 1, 0, elements, i)
      {
        ghost var before, ind := charvec[..], indvec[..];
        SlotFits(i, |p|, maxObjLen);
        indvec[i] := SQL_NULL_DATA;
        if !p[i].Buffer? {
          PackedNull(before, ind, maxObjLen, 1, 0, elements, i);
          assert indvec[..] == ind[i := SQL_NULL_DATA];
          continue;
        }
        var data := p[i].data;
        indvec[i] := |data|;
        assert indvec[..] == ind[i := |data| * 1];
        MemCopy(charvec, i * maxObjLen, data);
        PackedValue(before, charvec[..], ind, maxObjLen, 1, 0, elements, i, data);
      }
      PackedGives(charvec[..], indvec[..], maxObjLen, 1, 0, elements);
    }
  }

  lemma PackedGives<T>(
    storage: seq<T>, indvec: seq<int>, stride: nat, size: Width, zero: T, elements: seq<Option<seq<T>>>)
    requires PackedUpTo(storage, indvec, stride, size, zero, elements, |elements|)
    ensures |storage| == |indvec| * stride && Unpacked(storage, indvec, stride, size) == elements
    ensures Written(storage, indvec, stride, size, elements)
  {
    PackedUnpacks(storage, indvec, stride, size, zero, elements);
    forall i | 0 <= i < |elements| ensures SlotWritten(storage, indvec, stride, size, elements, i) {
      SlotIsWritten(storage, indvec, stride, size, zero, elements, i);
    }
  }

  /** Element i stands at i * stride, and its indicator is its length in bytes, or -1 for null. */
  predicate SlotWritten<T(==)>(
    storage: seq<T>, indvec: seq<int>, stride: nat, size: Width, elements: seq<Option<seq<T>>>, i: nat)
    requires i < |elements| == |indvec|
  {
    match elements[i]
    case None => indvec[i] == -1
    case Some(s) =>
      && indvec[i] == |s| * size && 0 <= i * stride && i * stride + |s| <= |storage|
      && storage[i * stride..i * stride + |s|] == s
  }

  predicate Written<T(==)>(
    storage: seq<T>, indvec: seq<int>, stride: nat, size: Width, elements: seq<Option<seq<T>>>)
  {
    |indvec| == |elements|
    && forall i | 0 <= i < |elements| :: SlotWritten(storage, indvec, stride, size, elements, i)
  }

  lemma SlotIsWritten<T>(
    storage: seq<T>, indvec: seq<int>, stride: nat, size: Width, zero: T, elements: seq<Option<seq<T>>>, i: nat)
    requires PackedUpTo(storage, indvec, stride, size, zero, elements, |elements|) && i < |elements|
    ensures SlotWritten(storage, indvec, stride, size, elements, i)
  {
    SlotFits(i, |indvec|, stride);
    if elements[i].Some? {
      var s := elements[i].value;
      assert SlotHolds(storage, indvec, stride, size, zero, i, elements[i]);
      assert Slot(storage, stride, |indvec|, i)[..|s|] == s;
      assert storage[i * stride..i * stride + |s|] == Slot(storage, stride, |indvec|, i)[..|s|];
    }
  }

  lemma PayloadsAre(p: seq<Element>)
    ensures |Payloads(p)| == |p| && forall i | 0 <= i < |p| :: Payloads(p)[i] == Payload(p[i])
  {
  }
}
