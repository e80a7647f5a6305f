/**
 * How both upload loops cut the payload into parts.
 *
 * The loop `while (file.read(buffer, part_size) || file.gcount() > 0)` reads at
 * most `part_size` bytes per round; a round that reads nothing ends the loop.
 * `PlanFrom` is that loop written as a recursive function over the read
 * position, and `Plan` starts it at offset 0 with the first part number
 * (1 for the multipart upload, 0 for the one-object-per-part upload).
 */
module PartPlanning {

  newtype byte = x: int | 0 <= x < 256

  /** The input file: it could not be opened, or it holds these bytes. */
  datatype SourceFile = Unopenable | Opened(bytes: seq<byte>)

  /** One dispatched part: its number, where it starts, and the bytes copied into its buffer. */
  datatype Part = Part(number: nat, offset: nat, data: seq<byte>)

  function Min(a: nat, b: nat): nat
  {
    if a <= b then a else b
  }

  /** Rounding-up division: the number of parts a payload of length `a` needs. */
  function CeilDiv(a: nat, b: nat): nat
    requires b > 0
  {
    (a + b - 1) / b
  }

  /**
   * What `file.gcount()` holds after `file.read(buffer, partSize)` when the
   * stream stands at `pos` in a file of `size` bytes: a full buffer, the
   * shorter tail, or nothing at the end of the file.
   */
  function ReadCount(size: nat, pos: nat, partSize: nat): (n: nat)
    requires pos <= size
    ensures n <= partSize && pos + n <= size
    ensures n == 0 <==> pos == size || partSize == 0
    ensures n < partSize ==> pos + n == size
  {
    Min(partSize, size - pos)
  }

  /** The parts the read loop dispatches from position `pos` on, numbered from `number`. */
  function PlanFrom(payload: seq<byte>, partSize: nat, pos: nat, number: nat): seq<Part>
    requires partSize > 0 && pos <= |payload|
    decreases |payload| - pos
  {
    var n := ReadCount(|payload|, pos, partSize);
    if n == 0 then []
    else [Part(number, pos, payload[pos..pos + n])] + PlanFrom(payload, partSize, pos + n, number + 1)
  }

  /** The whole plan for a payload, numbering the parts from `first`. */
  function Plan(payload: seq<byte>, partSize: nat, first: nat): seq<Part>
    requires partSize > 0
  {
    PlanFrom(payload, partSize, 0, first)
  }

  /** The bytes of the parts, laid end to end. */
  function Bytes(parts: seq<Part>): seq<byte>
  {
    if parts == [] then [] else parts[0].data + Bytes(parts[1..])
  }

  /** The sum of the part lengths. */
  function TotalLength(parts: seq<Part>): nat
  {
    if parts == [] then 0 else |parts[0].data| + TotalLength(parts[1..])
  }

  /** Parts numbered consecutively from `number`, in dispatch order. */
  predicate NumberedFrom(parts: seq<Part>, number: nat)
  {
    forall k :: 0 <= k < |parts| ==> parts[k].number == number + k
  }

  /** Part k starts at pos + k * partSize. */
  predicate OffsetsFrom(partSize: nat, pos: nat, parts: seq<Part>)
  {
    forall k :: 0 <= k < |parts| ==> parts[k].offset == pos + k * partSize
  }

  /** Every part holds exactly the payload bytes found at its offset. */
  predicate SlicesOf(payload: seq<byte>, parts: seq<Part>)
  {
    forall k :: 0 <= k < |parts| ==>
      && parts[k].offset + |parts[k].data| <= |payload|
      && parts[k].data == payload[parts[k].offset..parts[k].offset + |parts[k].data|]
  }

  /** Every part but the last is full; the last holds 1 to partSize bytes and ends the payload. */
  predicate FullExceptLast(payload: seq<byte>, partSize: nat, parts: seq<Part>)
  {
    && (forall k :: 0 <= k < |parts| - 1 ==> |parts[k].data| == partSize)
    && (parts != [] ==>
          && 1 <= |parts[|parts| - 1].data| <= partSize
          && parts[|parts| - 1].offset + |parts[|parts| - 1].data| == |payload|)
  }

  lemma MulAtLeast(i: int, b: int)
    requires i >= 1 && b > 0
    ensures i * b >= b
  {
    assert i * b == (i - 1) * b + b;
    assert (i - 1) * b >= 0;
  }

  /** Euclidean division has only one quotient. */
  lemma DivUnique(y: int, b: int, q: int, r: int)
    requires b > 0 && 0 <= r < b && y == q * b + r
    ensures y / b == q
  {
    var q', r' := y / b, y % b;
    assert y == q' * b + r';
    assert (q - q') * b == r' - r;
    if q > q' {
      MulAtLeast(q - q', b);
    } else if q < q' {
      MulAtLeast(q' - q, b);
    }
  }

  lemma CeilDivStep(rem: nat, partSize: nat)
    requires partSize > 0 && rem > 0
    ensures CeilDiv(rem, partSize) == 1 + CeilDiv(rem - Min(partSize, rem), partSize)
  {
    DivUnique(partSize - 1, partSize, 0, partSize - 1);
    if rem >= partSize {
      var x := rem - 1;
      DivUnique(x, partSize, x / partSize, x % partSize);
      DivUnique(x + partSize, partSize, x / partSize + 1, x % partSize);
    } else {
      DivUnique(rem + partSize - 1, partSize, 1, rem - 1);
    }
  }

  lemma {:induction false} PlanFromCount(payload: seq<byte>, partSize: nat, pos: nat, number: nat)
    requires partSize > 0 && pos <= |payload|
    ensures |PlanFrom(payload, partSize, pos, number)| == CeilDiv(|payload| - pos, partSize)
    decreases |payload| - pos
  {
    var n := ReadCount(|payload|, pos, partSize);
    if n == 0 {
      assert CeilDiv(0, partSize) == 0;
    } else {
      PlanFromCount(payload, partSize, pos + n, number + 1);
      CeilDivStep(|payload| - pos, partSize);
    }
  }

  lemma {:induction false} PlanFromNumbers(payload: seq<byte>, partSize: nat, pos: nat, number: nat)
    requires partSize > 0 && pos <= |payload|
    ensures NumberedFrom(PlanFrom(payload, partSize, pos, number), number)
    decreases |payload| - pos
  {
    var n := ReadCount(|payload|, pos, partSize);
    if n > 0 {
      var parts := PlanFrom(payload, partSize, pos, number);
      var rest := PlanFrom(payload, partSize, pos + n, number + 1);
      PlanFromNumbers(payload, partSize, pos + n, number + 1);
      assert parts == [Part(number, pos, payload[pos..pos + n])] + rest;
      forall k | 1 <= k < |parts|
        ensures parts[k].number == number + k
      {
        assert parts[k] == rest[k - 1];
      }
    }
  }

  lemma {:induction false} PlanFromLengths(payload: seq<byte>, partSize: nat, pos: nat, number: nat)
    requires partSize > 0 && pos <= |payload|
    ensures FullExceptLast(payload, partSize, PlanFrom(payload, partSize, pos, number))
    decreases |payload| - pos
  {
    var n := ReadCount(|payload|, pos, partSize);
    if n > 0 {
      var parts := PlanFrom(payload, partSize, pos, number);
      var rest := PlanFrom(payload, partSize, pos + n, number + 1);
      PlanFromLengths(payload, partSize, pos + n, number + 1);
      assert parts == [Part(number, pos, payload[pos..pos + n])] + rest;
      assert rest != [] ==> n == partSize;
    }
  }

  lemma {:induction false} PlanFromOffsets(payload: seq<byte>, partSize: nat, pos: nat, number: nat)
    requires partSize > 0 && pos <= |payload|
    ensures OffsetsFrom(partSize, pos, PlanFrom(payload, partSize, pos, number))
    decreases |payload| - pos
  {
    var parts := PlanFrom(payload, partSize, pos, number);
    var n := ReadCount(|payload|, pos, partSize);
    if n > 0 {
      var rest := PlanFrom(payload, partSize, pos + n, number + 1);
      PlanFromOffsets(payload, partSize, pos + n, number + 1);
      assert parts == [Part(number, pos, payload[pos..pos + n])] + rest;
      assert rest != [] ==> n == partSize;
      forall k | 1 <= k < |parts|
        ensures parts[k].offset == pos + k * partSize
      {
        assert parts[k] == rest[k - 1];
        assert (k - 1) * partSize + partSize == k * partSize;
      }
    }
  }

  lemma {:induction false} PlanFromSlices(payload: seq<byte>, partSize: nat, pos: nat, number: nat)
    requires partSize > 0 && pos <= |payload|
    ensures SlicesOf(payload, PlanFrom(payload, partSize, pos, number))
    decreases |payload| - pos
  {
    var parts := PlanFrom(payload, partSize, pos, number);
    var n := ReadCount(|payload|, pos, partSize);
    if n > 0 {
      var rest := PlanFrom(payload, partSize, pos + n, number + 1);
      PlanFromSlices(payload, partSize, pos + n, number + 1);
      assert parts == [Part(number, pos, payload[pos..pos + n])] + rest;
      forall k | 1 <= k < |parts|
        ensures parts[k].offset + |parts[k].data| <= |payload|
        ensures parts[k].data == payload[parts[k].offset..parts[k].offset + |parts[k].data|]
      {
        assert parts[k] == rest[k - 1];
      }
    }
  }

  lemma {:induction false} PlanFromBytes(payload: seq<byte>, partSize: nat, pos: nat, number: nat)
    requires partSize > 0 && pos <= |payload|
    ensures Bytes(PlanFrom(payload, partSize, pos, number)) == payload[pos..]
    ensures TotalLength(PlanFrom(payload, partSize, pos, number)) == |payload| - pos
    decreases |payload| - pos
  {
    var n := ReadCount(|payload|, pos, partSize);
    if n > 0 {
      var parts := PlanFrom(payload, partSize, pos, number);
      PlanFromBytes(payload, partSize, pos + n, number + 1);
      assert parts[1..] == PlanFrom(payload, partSize, pos + n, number + 1);
      assert payload[pos..] == payload[pos..pos + n] + payload[pos + n..];
    }
  }

  /** The loop dispatches ceil(L / part_size) parts, and none for an empty payload. */
  lemma PlanCount(payload: seq<byte>, partSize: nat, first: nat)
    requires partSize > 0
    ensures |Plan(payload, partSize, first)| == CeilDiv(|payload|, partSize)
    ensures |Plan(payload, partSize, first)| == 0 <==> |payload| == 0
  {
    PlanFromCount(payload, partSize, 0, first);
    PlanFromBytes(payload, partSize, 0, first);
  }

  /** Part k (counting from 0) carries number first + k. */
  lemma PlanNumbered(payload: seq<byte>, partSize: nat, first: nat)
    requires partSize > 0
    ensures NumberedFrom(Plan(payload, partSize, first), first)
  {
    PlanFromNumbers(payload, partSize, 0, first);
  }

  /**
   * Part k (counting from 0) starts at k * part_size, holds exactly the payload
   * bytes from there, and is a full part unless it is the last; the last part
   * is between 1 and part_size bytes long and ends the payload.
   */
  lemma PlanLayout(payload: seq<byte>, partSize: nat, first: nat)
    requires partSize > 0
    ensures OffsetsFrom(partSize, 0, Plan(payload, partSize, first))
    ensures SlicesOf(payload, Plan(payload, partSize, first))
    ensures FullExceptLast(payload, partSize, Plan(payload, partSize, first))
  {
    PlanFromOffsets(payload, partSize, 0, first);
    PlanFromSlices(payload, partSize, 0, first);
    PlanFromLengths(payload, partSize, 0, first);
  }

  /** The parts laid end to end give back the payload, so their lengths sum to L. */
  lemma PlanCoversPayload(payload: seq<byte>, partSize: nat, first: nat)
    requires partSize > 0
    ensures Bytes(Plan(payload, partSize, first)) == payload
    ensures TotalLength(Plan(payload, partSize, first)) == |payload|
  {
    PlanFromBytes(payload, partSize, 0, first);
  }

  /** 100 units cut into parts of 32: four parts of 32, 32, 32 and 4, numbered 1 to 4. */
  lemma HundredInPartsOfThirtyTwo(payload: seq<byte>)
    requires |payload| == 100
    ensures var plan := Plan(payload, 32, 1);
            && |plan| == 4
            && |plan[0].data| == 32 && |plan[1].data| == 32 && |plan[2].data| == 32 && |plan[3].data| == 4
            && plan[0].number == 1 && plan[1].number == 2 && plan[2].number == 3 && plan[3].number == 4
  {
    var plan := Plan(payload, 32, 1);
    PlanCount(payload, 32, 1);
    assert CeilDiv(100, 32) == 4;
    PlanNumbered(payload, 32, 1);
    PlanLayout(payload, 32, 1);
    assert plan[3].offset == 96;
  }

  /** 10 units cut into parts of 3: four parts numbered 1 to 4, the first two holding units 0-2 and 3-5. */
  lemma TenInPartsOfThree(payload: seq<byte>)
    requires |payload| == 10
    ensures var plan := Plan(payload, 3, 1);
            && |plan| == 4 && NumberedFrom(plan, 1)
            && plan[0].data == payload[0..3] && plan[1].data == payload[3..6]
  {
    var plan := Plan(payload, 3, 1);
    PlanCount(payload, 3, 1);
    assert CeilDiv(10, 3) == 4;
    PlanNumbered(payload, 3, 1);
    PlanLayout(payload, 3, 1);
    assert plan[0].offset == 0 && plan[1].offset == 3;
  }
}
