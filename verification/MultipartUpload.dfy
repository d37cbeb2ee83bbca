/** Choosing the parts of a multipart upload, and uploading them. */
module MultipartUpload {
  import opened Options
  import opened Basics

  /** Go's division and remainder, which round toward zero. */
  function GoDiv(a: int, b: int): int
    requires b > 0
  {
    if a >= 0 then a / b else -(-a / b)
  }

  function GoMod(a: int, b: int): int
    requires b > 0
  {
    a - b * GoDiv(a, b)
  }

  function MiB(n: int): int { n * 1048576 }

  function MaximumObject(): int { MiB(5120) * 10000 }

  datatype Refusal = TooSmall | TooLarge | NoPartSize | TooManyParts

  datatype Plan = Parts(size: int, count: int) | Refused(why: Refusal)

  function PartSize(size: int): int {
    var required := GoDiv(size, 10000) + if GoMod(size, 10000) != 0 then 1 else 0;
    var atLeast := if required > MiB(64) then required else MiB(64);
    var remainder := GoMod(atLeast, MiB(1));
    if remainder != 0 then atLeast + MiB(1) - remainder else atLeast
  }

  /** `multipartUploadPlanWithThreshold`. */
  function PlanFor(size: int, singlePutMaximum: int): Plan {
    if size <= singlePutMaximum then Refused(TooSmall)
    else if size > MaximumObject() then Refused(TooLarge)
    else
      var part := PartSize(size);
      if part < MiB(5) || part > MiB(5120) then Refused(NoPartSize)
      else
        var count := GoDiv(size - 1, part) + 1;
        if count > 10000 then Refused(TooManyParts) else Parts(part, count)
  }

  lemma Quotient(a: int, b: int)
    requires a >= 0 && b > 0
    ensures (a / b) * b <= a < (a / b + 1) * b
  {
  }

  lemma PartSizeBounds(size: int)
    requires size <= MaximumObject()
    ensures var part := PartSize(size);
            MiB(64) <= part <= MiB(5120) && part % MiB(1) == 0 && size <= part * 10000
  {
  }

  lemma PartSizeIsLeast(size: int, other: int)
    requires 1 <= size <= MaximumObject()
    requires MiB(64) <= other < PartSize(size) && other % MiB(1) == 0
    ensures other * 10000 < size
  {
  }

  /** Only the two documented refusals ever happen.  Otherwise the parts are whole mebibytes of a
      legal size, at most ten thousand, and cover the object with the last one not empty; and no
      smaller such part size from the default up would need few enough parts. */
  lemma PlanIsSound(size: int, singlePutMaximum: int)
    ensures var plan := PlanFor(size, singlePutMaximum);
            && (plan == Refused(TooSmall) <==> size <= singlePutMaximum)
            && (plan == Refused(TooLarge) <==> size > singlePutMaximum && size > 53_687_091_200_000)
            && (plan.Refused? ==> plan.why == TooSmall || plan.why == TooLarge)
            && (plan.Parts? ==> 67_108_864 <= plan.size <= 5_368_709_120 && plan.size % 1_048_576 == 0 && plan.count <= 10000)
            && (plan.Parts? && size >= 1 ==>
                 && 1 <= plan.count && (plan.count - 1) * plan.size < size <= plan.count * plan.size
                 && forall other | 67_108_864 <= other < plan.size && other % 1_048_576 == 0 :: other * 10000 < size)
  {
    if size > singlePutMaximum && size <= MaximumObject() {
      PartSizeBounds(size);
      var part := PartSize(size);
      CountBounds(size, part);
      if size >= 1 {
        forall other | MiB(64) <= other < part && other % MiB(1) == 0 ensures other * 10000 < size {
          PartSizeIsLeast(size, other);
        }
      }
    }
  }

  lemma CountBounds(size: int, part: int)
    requires part > 0 && size <= part * 10000
    ensures var count := GoDiv(size - 1, part) + 1;
            count <= 10000 && (size >= 1 ==> 1 <= count && (count - 1) * part < size <= count * part)
  {
    if size >= 1 {
      var q := (size - 1) / part;
      Quotient(size - 1, part);
      if q >= 10000 { Scale(10000, q, part); }
    } else {
      Quotient(1 - size, part);
      NotNegative(1 - size, part);
    }
  }

  lemma NotNegative(a: int, b: int)
    requires a >= 0 && b > 0
    ensures a / b >= 0
  {
    Quotient(a, b);
    if a / b + 1 <= 0 { Scale(a / b + 1, 0, b); }
  }

  /** All intermediate values of a plan stay within 64 bits, and the part numbers within 32. */
  lemma PlanDoesNotOverflow(size: int, singlePutMaximum: int)
    requires -0x8000_0000_0000_0000 <= size < 0x8000_0000_0000_0000
    ensures MaximumObject() + MiB(2) < 0x8000_0000_0000_0000
    ensures PlanFor(size, singlePutMaximum).Parts? ==> PlanFor(size, singlePutMaximum).size * 10000 < 0x8000_0000_0000_0000
    ensures PlanFor(size, singlePutMaximum).Parts? ==> PlanFor(size, singlePutMaximum).count < 0x8000_0000
  {
    PlanIsSound(size, singlePutMaximum);
  }

  // ----- uploading -----

  datatype Part = Part(number: int, bytes: seq<byte>)

  /** What the store says to one part: an error, a reply without a tag, or a tagged reply. */
  datatype Reply = Failed | Untagged | Tagged

  function Assembled(parts: seq<Part>): seq<byte> {
    if parts == [] then [] else Assembled(parts[..|parts| - 1]) + parts[|parts| - 1].bytes
  }

  /** Part `k` (from zero) of the first `size` bytes of the source, numbered from one. */
  predicate IsPart(part: Part, source: seq<byte>, size: int, partSize: int, k: nat) {
    var from := k * partSize;
    var to := if from + partSize < size then from + partSize else size;
    0 <= from <= to <= |source| && part == Part(k + 1, source[from..to])
  }

  predicate PartsOf(parts: seq<Part>, source: seq<byte>, size: int, partSize: int) {
    forall k: nat | k < |parts| :: IsPart(parts[k], source, size, partSize, k)
  }

  /** Everything that has to go well. */
  predicate Succeeds(source: seq<byte>, size: int, plan: Plan, created: Option<nat>, replies: nat -> Reply, completes: bool) {
    && plan.Parts? && created.Some? && completes && |source| >= size
    && forall k: nat | k < plan.count :: replies(k) == Tagged
  }

  /** A bucket: its objects, and the parts received by unfinished uploads. */
  class Bucket {
    var objects: map<string, seq<byte>>
    var unfinished: map<nat, seq<Part>>

    constructor ()
      ensures objects == map[] && unfinished == map[]
    {
      objects, unfinished := map[], map[];
    }

    /** `putMultipartWithThreshold`.  `created` is the identifier the store gives to the upload and
        `replies(k)` what it says to the `k`th part; `completes` and `aborts` say whether the last
        call and an abort go through. */
    method PutMultipart(key: string, source: seq<byte>, size: int, singlePutMaximum: int, created: Option<nat>,
                        replies: nat -> Reply, completes: bool, aborts: bool)
        returns (ok: bool, sent: seq<Part>)
      requires singlePutMaximum >= 0
      requires created.Some? ==> created.value !in unfinished
      modifies this
      ensures ok <==> Succeeds(source, size, PlanFor(size, singlePutMaximum), created, replies, completes)
      ensures ok ==> |sent| == PlanFor(size, singlePutMaximum).count
                     && PartsOf(sent, source, size, PlanFor(size, singlePutMaximum).size) && Assembled(sent) == source[..size]
      ensures ok ==> objects == old(objects)[key := source[..size]]
      ensures !ok ==> objects == old(objects)
      ensures unfinished == old(unfinished) || (!ok && !aborts)
    {
      hide Progress, PlanFor, PartsOf;
      sent := [];
      var plan := PlanFor(size, singlePutMaximum);
      PlanIsSound(size, singlePutMaximum);
      if plan.Refused? || created.None? { return false, sent; }
      var id := created.value;
      unfinished := unfinished[id := []];
      var offset, partNumber := 0, 1;
      Begin(source, size, plan);
      while offset < size
        invariant 0 <= offset <= size && partNumber == |sent| + 1
        invariant Progress(sent, source, size, plan, offset)
        invariant forall k: nat | k < |sent| :: replies(k) == Tagged
        invariant objects == old(objects) && unfinished == old(unfinished)[id := sent]
        decreases size - offset
      {
        Advance(sent, source, size, plan, offset);
        var length := if plan.size < size - offset then plan.size else size - offset;
        var available := if length < |source| - offset then length else |source| - offset;
        var part := Part(partNumber, source[offset..offset + available]);
        if replies(partNumber - 1) == Failed {
          Abort(id, aborts, old(unfinished));
          return false, sent;
        }
        unfinished := unfinished[id := sent + [part]];
        if available != length || replies(partNumber - 1) == Untagged {
          Abort(id, aborts, old(unfinished));
          return false, sent;
        }
        sent := sent + [part];
        offset := offset + length;
        partNumber := partNumber + 1;
      }
      Arrive(sent, source, size, plan);
      if !completes {
        Abort(id, aborts, old(unfinished));
        return false, sent;
      }
      objects := objects[key := Assembled(unfinished[id])];
      unfinished := unfinished - {id};
      assert unfinished == old(unfinished);
      ok := true;
    }

    /** `abortMultipart`. */
    method Abort(id: nat, aborts: bool, ghost before: map<nat, seq<Part>>)
      requires id !in before && id in unfinished && unfinished - {id} == before
      modifies this`unfinished
      ensures aborts ==> unfinished == before
    {
      if aborts { unfinished := unfinished - {id}; }
    }
  }

  /** The parts sent so far are the first parts of the source and end at `offset`. */
  ghost predicate Progress(parts: seq<Part>, source: seq<byte>, size: int, plan: Plan, offset: int) {
    && plan.Parts? && plan.size > 0 && 0 <= offset <= size && offset <= |source|
    && (plan.count - 1) * plan.size < size <= plan.count * plan.size
    && |parts| <= plan.count && offset == (if |parts| < plan.count then |parts| * plan.size else size)
    && Assembled(parts) == source[..offset]
    && PartsOf(parts, source, size, plan.size)
  }

  lemma Begin(source: seq<byte>, size: int, plan: Plan)
    requires plan.Parts? && size >= 1 && plan.size > 0 && plan.count >= 1
    requires (plan.count - 1) * plan.size < size <= plan.count * plan.size
    ensures Progress([], source, size, plan, 0)
  {
  }

  lemma NextOffset(k: nat, size: int, plan: Plan, offset: int)
    requires plan.Parts? && plan.size > 0 && (plan.count - 1) * plan.size < size <= plan.count * plan.size
    requires k <= plan.count && offset == (if k < plan.count then k * plan.size else size) && offset < size
    ensures k < plan.count && offset == k * plan.size && k * plan.size + plan.size == (k + 1) * plan.size
    ensures offset + (if plan.size < size - offset then plan.size else size - offset)
            == if k + 1 < plan.count then (k + 1) * plan.size else size
  {
    if k + 1 < plan.count { Scale(k + 1, plan.count - 1, plan.size); }
  }

  lemma {:induction false} Advance(parts: seq<Part>, source: seq<byte>, size: int, plan: Plan, offset: int)
    requires Progress(parts, source, size, plan, offset) && offset < size
    ensures plan.size > 0 && offset <= |source| && |parts| < plan.count
    ensures var length := if plan.size < size - offset then plan.size else size - offset;
            offset + length <= |source| ==>
              Progress(parts + [Part(|parts| + 1, source[offset..offset + length])], source, size, plan, offset + length)
  {
    var k := |parts|;
    NextOffset(k, size, plan, offset);
    var length := if plan.size < size - offset then plan.size else size - offset;
    if offset + length <= |source| {
      var part := Part(k + 1, source[offset..offset + length]);
      assert (parts + [part])[..k] == parts;
      assert source[..offset] + part.bytes == source[..offset + length];
      assert IsPart(part, source, size, plan.size, k);
    }
  }

  lemma {:induction false} Arrive(parts: seq<Part>, source: seq<byte>, size: int, plan: Plan)
    requires Progress(parts, source, size, plan, size)
    ensures |parts| == plan.count && |source| >= size && Assembled(parts) == source[..size]
    ensures PartsOf(parts, source, size, plan.size)
  {
    if |parts| < plan.count { Scale(|parts|, plan.count - 1, plan.size); }
  }
}
