/** Splitting a project's expenses into chunks that each fit into one AI prompt. */
module ExpenseChunks {
  import opened Options

  function ChunkSize(): nat { 100 }
  function PromptBytes(): nat { 16 * 1024 }

  /** An expense with the length of its shortened JSON record; some amounts cannot be encoded. */
  datatype Expense = Expense(id: string, encoded: Option<nat>)

  /** The bytes counted for a list of records: two brackets, each record and one separator each. */
  function Bytes(items: seq<Expense>): nat
    requires AllEncode(items)
  {
    if items == [] then 2 else Bytes(items[..|items| - 1]) + items[|items| - 1].encoded.value + 1
  }

  predicate AllEncode(items: seq<Expense>) {
    forall x | x in items :: x.encoded.Some?
  }

  function Encodable(items: seq<Expense>): (r: seq<Expense>)
    ensures AllEncode(r) && |r| <= |items| && (|r| == |items| ==> r == items)
  {
    if items == [] then []
    else if items[|items| - 1].encoded.Some? then Encodable(items[..|items| - 1]) + [items[|items| - 1]]
    else Encodable(items[..|items| - 1])
  }

  /** Small enough for a prompt; a single record always is. */
  predicate Within(items: seq<Expense>)
    requires AllEncode(items)
  {
    |items| <= 1 || Bytes(items) <= PromptBytes()
  }

  predicate Whole(items: seq<Expense>) {
    AllEncode(items) && Within(items)
  }

  lemma {:induction false} BytesMonotone(items: seq<Expense>, i: nat, j: nat)
    requires AllEncode(items) && i <= j <= |items|
    ensures Bytes(items[..i]) + (j - i) <= Bytes(items[..j])
  {
    if i < j {
      BytesMonotone(items, i, j - 1);
      assert items[..j][..j - 1] == items[..j - 1];
    }
  }

  lemma {:induction false} BytesOfTail(items: seq<Expense>, i: nat)
    requires AllEncode(items) && i <= |items|
    ensures Bytes(items[i..]) <= Bytes(items)
  {
    if i == |items| {
      BytesMonotone(items, 0, |items|);
      assert items[..|items|] == items;
    } else {
      BytesOfTail(items[..|items| - 1], i);
      assert items[i..][..|items| - i - 1] == items[..|items| - 1][i..];
    }
  }

  lemma {:induction false} EncodableWhole(items: seq<Expense>)
    requires AllEncode(items)
    ensures Encodable(items) == items
  {
    if items != [] { EncodableWhole(items[..|items| - 1]); }
  }

  lemma EncodableStep(items: seq<Expense>, i: nat)
    requires i < |items|
    ensures var before, after := Encodable(items[..i]), Encodable(items[..i + 1]);
            if items[i].encoded.Some?
            then after == before + [items[i]] && Bytes(after) == Bytes(before) + items[i].encoded.value + 1
            else after == before
  {
    assert items[..i + 1][..i] == items[..i];
    var before := Encodable(items[..i]);
    assert (before + [items[i]])[..|before|] == before;
  }

  lemma NothingKept(items: seq<Expense>)
    ensures Encodable(items[..0]) == [] && Bytes([]) == 2
  {
  }

  // ----- in numbers -----

  /** The lengths of all records together. */
  function Lengths(items: seq<Expense>): nat
    requires AllEncode(items)
  {
    if items == [] then 0 else items[0].encoded.value + Lengths(items[1..])
  }

  lemma {:induction false} LengthsSnoc(items: seq<Expense>)
    requires AllEncode(items) && items != []
    ensures Lengths(items) == Lengths(items[..|items| - 1]) + items[|items| - 1].encoded.value
  {
    if |items| > 1 {
      LengthsSnoc(items[1..]);
      assert items[1..][..|items| - 2] == items[..|items| - 1][1..];
    }
  }

  /** The bytes counted are one more than the JSON array of the records has. */
  lemma {:induction false} BytesInNumbers(items: seq<Expense>)
    requires AllEncode(items)
    ensures Bytes(items) == 2 + Lengths(items) + |items|
  {
    if items != [] {
      BytesInNumbers(items[..|items| - 1]);
      LengthsSnoc(items);
    }
  }

  /** A chunk is one expense, or 2 to 100 that all encode and together stay within 16 KiB. */
  lemma AcceptableInNumbers(chunk: seq<Expense>)
    ensures Acceptable(chunk) <==>
              |chunk| == 1 || (2 <= |chunk| <= 100 && AllEncode(chunk) && 2 + Lengths(chunk) + |chunk| <= 16384)
  {
    if AllEncode(chunk) { BytesInNumbers(chunk); }
  }

  /** `kept` are the records at the increasing positions `at`, which are those that encode. */
  ghost predicate InOrder(kept: seq<Expense>, at: seq<nat>, items: seq<Expense>) {
    && |at| == |kept|
    && (forall k | 0 <= k < |at| :: at[k] < |items| && kept[k] == items[at[k]])
    && (forall j, k | 0 <= j < k < |at| :: at[j] < at[k])
    && (forall i: nat | i < |items| :: i in at <==> items[i].encoded.Some?)
  }

  lemma InOrderGrows(kept: seq<Expense>, at: seq<nat>, items: seq<Expense>, x: Expense)
    requires InOrder(kept, at, items)
    ensures x.encoded.Some? ==> InOrder(kept + [x], at + [|items|], items + [x])
    ensures x.encoded.None? ==> InOrder(kept, at, items + [x])
  {
    assert forall i: nat :: i in at + [|items|] <==> i in at || i == |items|;
    assert |items| in at ==> false;
  }

  /** What is kept are the records that encode, in their order. */
  lemma {:induction false} EncodableInOrder(items: seq<Expense>) returns (at: seq<nat>)
    ensures InOrder(Encodable(items), at, items)
  {
    if items == [] { return []; }
    var n := |items| - 1;
    assert items == items[..n] + [items[n]];
    at := EncodableInOrder(items[..n]);
    hide InOrder;
    InOrderGrows(Encodable(items[..n]), at, items[..n], items[n]);
    if items[n].encoded.Some? { at := at + [n]; }
  }

  /** Stopping at the first record that does not fit keeps everything exactly from a whole list. */
  lemma WholeIsSeen(items: seq<Expense>, seen: nat)
    requires seen <= |items| && Within(Encodable(items[..seen]))
    requires seen < |items| ==> !Within(Encodable(items[..seen + 1]))
    ensures |Encodable(items[..seen])| == |items| <==> Whole(items)
  {
    assert items[..|items|] == items;
    if Whole(items) {
      EncodableWhole(items[..seen]);
      if seen < |items| {
        EncodableWhole(items[..seen + 1]);
        BytesMonotone(items, seen + 1, |items|);
      }
    }
  }

  /** `compactExpenseAIModelItems`: skips what cannot be encoded and stops before the first record
      that would not fit.  A list comes back whole exactly when all of it encodes and fits. */
  method Compact(items: seq<Expense>) returns (kept: seq<Expense>, ghost seen: nat)
    ensures seen <= |items| && kept == Encodable(items[..seen]) && Within(kept)
    ensures seen < |items| ==> !Within(Encodable(items[..seen + 1]))
    ensures |kept| == |items| <==> Whole(items)
    ensures AllEncode(kept) && (|kept| >= 2 ==> 2 + Lengths(kept) + |kept| <= 16384)
    ensures seen < |items| ==>
              items[seen].encoded.Some? && kept != [] && 2 + Lengths(kept) + |kept| + items[seen].encoded.value + 1 > 16384
  {
    hide Encodable, Bytes, Lengths;
    NothingKept(items);
    kept, seen := [], 0;
    var totalBytes := 2;
    for i := 0 to |items|
      invariant kept == Encodable(items[..i]) && totalBytes == Bytes(kept) && Within(kept)
      invariant seen == i
    {
      EncodableStep(items, i);
      if items[i].encoded.Some? {
        var length := items[i].encoded.value;
        if |kept| > 0 && totalBytes + length + 1 > PromptBytes() { break; }
        kept := kept + [items[i]];
        totalBytes := totalBytes + length + 1;
      }
      seen := i + 1;
    }
    BytesInNumbers(kept);
    WholeIsSeen(items, seen);
  }

  // ----- splitting -----

  /** What a chunk may be: at most 100 expenses that a prompt takes whole, or any single one. */
  predicate Acceptable(chunk: seq<Expense>) {
    1 <= |chunk| <= ChunkSize() && (|chunk| == 1 || Whole(chunk))
  }

  function Concat(chunks: seq<seq<Expense>>): seq<Expense> {
    if chunks == [] then [] else chunks[0] + Concat(chunks[1..])
  }

  /** A way to cut `items` into acceptable chunks. */
  predicate Splits(chunks: seq<seq<Expense>>, items: seq<Expense>) {
    Concat(chunks) == items && forall c | c in chunks :: Acceptable(c)
  }

  /** The chunks still to come when `current` is open and `rest` is unread. */
  function Grouped(current: seq<Expense>, rest: seq<Expense>): seq<seq<Expense>>
    decreases |rest|
  {
    if rest == [] then (if current == [] then [] else [current])
    else if current == [] || Acceptable(current + [rest[0]]) then Grouped(current + [rest[0]], rest[1..])
    else [current] + Grouped([rest[0]], rest[1..])
  }

  lemma GroupedStep(current: seq<Expense>, items: seq<Expense>, i: nat)
    requires i < |items|
    ensures Grouped(current, items[i..]) ==
            if current == [] || Acceptable(current + [items[i]]) then Grouped(current + [items[i]], items[i + 1..])
            else [current] + Grouped([items[i]], items[i + 1..])
    ensures Grouped([], items[i..]) == Grouped([items[i]], items[i + 1..])
  {
    assert items[i..][1..] == items[i + 1..];
    assert [] + [items[i]] == [items[i]];
  }

  lemma GroupedEnd(current: seq<Expense>)
    ensures Grouped(current, []) == if current == [] then [] else [current]
  {
  }

  /** `splitExpenseAIItems`. */
  method Split(items: seq<Expense>) returns (chunks: seq<seq<Expense>>)
    ensures chunks == Grouped([], items)
  {
    hide Whole, Grouped;
    GroupedEnd([]);
    assert items[0..] == items;
    if |items| == 0 { return []; }
    chunks := [];
    var current: seq<Expense> := [];
    for i := 0 to |items|
      invariant Grouped([], items) == chunks + Grouped(current, items[i..])
      invariant i > 0 ==> current != []
      invariant |current| <= ChunkSize()
    {
      var item := items[i];
      GroupedStep(current, items, i);
      assert [] + [item] == [item];
      ghost var more := Grouped([item], items[i + 1..]);
      assert chunks + [current] + more == chunks + ([current] + more);
      if |current| >= ChunkSize() {
        chunks := chunks + [current];
        current := [];
      }
      var candidate := current + [item];
      var kept, _ := Compact(candidate);
      if |current| > 0 && |kept| < |candidate| {
        chunks := chunks + [current];
        current := [item];
        continue;
      }
      current := candidate;
    }
    GroupedEnd(current);
    assert items[|items|..] == [];
    if |current| > 0 { chunks := chunks + [current]; }
  }

  /** A contiguous part of an acceptable chunk is acceptable. */
  lemma PartOfAcceptable(chunk: seq<Expense>, i: nat, j: nat)
    requires Acceptable(chunk) && i < j <= |chunk|
    ensures Acceptable(chunk[i..j])
  {
    if |chunk| > 1 {
      BytesMonotone(chunk, j, |chunk|);
      assert chunk[..|chunk|] == chunk;
      BytesOfTail(chunk[..j], i);
      assert chunk[..j][i..] == chunk[i..j];
    }
  }

  lemma {:induction false} GroupedSplits(current: seq<Expense>, rest: seq<Expense>)
    requires current == [] || Acceptable(current)
    ensures Splits(Grouped(current, rest), current + rest)
    decreases |rest|
  {
    if rest == [] {
      assert current + rest == current;
      assert current != [] ==> Concat([current]) == current + Concat([]);
    } else if current == [] || Acceptable(current + [rest[0]]) {
      GroupedSplits(current + [rest[0]], rest[1..]);
      assert current + [rest[0]] + rest[1..] == current + rest;
    } else {
      GroupedSplits([rest[0]], rest[1..]);
      assert [rest[0]] + rest[1..] == rest;
      assert ([current] + Grouped([rest[0]], rest[1..]))[1..] == Grouped([rest[0]], rest[1..]);
    }
  }

  /** The loop stays ahead of every other cut, even of a longer list that ends the same way. */
  lemma {:induction false} GroupedStaysAhead(before: seq<Expense>, current: seq<Expense>, rest: seq<Expense>, chunks: seq<seq<Expense>>)
    requires current == [] || Acceptable(current)
    requires current == [] ==> rest == []
    requires Splits(chunks, before + current + rest)
    ensures |Grouped(current, rest)| <= |chunks|
    decreases |rest|, |chunks|
  {
    if current == [] {
    } else if rest != [] && Acceptable(current + [rest[0]]) {
      assert before + (current + [rest[0]]) + rest[1..] == before + current + rest;
      GroupedStaysAhead(before, current + [rest[0]], rest[1..], chunks);
    } else if chunks == [] {
    } else {
      var whole := before + current + rest;
      var n := |chunks[0]|;
      assert whole[..n] == chunks[0] && whole[n..] == Concat(chunks[1..]);
      if n <= |before| {
        assert whole[n..] == before[n..] + current + rest;
        GroupedStaysAhead(before[n..], current, rest, chunks[1..]);
      } else if rest != [] {
        FirstChunkEnds(before, current, rest, chunks[0]);
        var left := (before + current)[n..];
        assert whole[n..] == left + [rest[0]] + rest[1..];
        GroupedStaysAhead(left, [rest[0]], rest[1..], chunks[1..]);
      }
    }
  }

  lemma FirstChunkEnds(before: seq<Expense>, current: seq<Expense>, rest: seq<Expense>, first: seq<Expense>)
    requires rest != [] && current != [] && !Acceptable(current + [rest[0]])
    requires Acceptable(first) && first <= before + current + rest
    ensures |first| <= |before| + |current|
  {
    if |first| > |before| + |current| {
      assert first[|before|..|before| + |current| + 1] == current + [rest[0]];
      PartOfAcceptable(first, |before|, |before| + |current| + 1);
    }
  }

  /** The chunks are a cut of the whole list into acceptable chunks, none of which is shortened on
      its way into a prompt, and no cut has fewer. */
  lemma SplitIsOptimal(items: seq<Expense>, other: seq<seq<Expense>>)
    ensures Splits(Grouped([], items), items)
    ensures Splits(other, items) ==> |Grouped([], items)| <= |other|
  {
    GroupedSplits([], items);
    assert [] + items == items;
    if Splits(other, items) && items != [] {
      assert [] + [items[0]] + items[1..] == items;
      GroupedStaysAhead([], [items[0]], items[1..], other);
      assert [] + [items[0]] == [items[0]];
    }
  }

  /** Every chunk reaches the prompt whole, except an expense that cannot be encoded, which is
      alone in its chunk; and the JSON array of two or more records stays under the limit. */
  lemma ChunksReachThePrompt(items: seq<Expense>, k: nat)
    requires k < |Grouped([], items)|
    ensures var chunk := Grouped([], items)[k];
            && (Whole(chunk) <==> AllEncode(chunk))
            && (!AllEncode(chunk) ==> |chunk| == 1)
            && (AllEncode(chunk) && |chunk| > 1 ==> Bytes(chunk) - 1 < PromptBytes())
            && (AllEncode(chunk) && |chunk| > 1 ==> 2 + Lengths(chunk) + (|chunk| - 1) < 16384)
  {
    if AllEncode(Grouped([], items)[k]) { BytesInNumbers(Grouped([], items)[k]); }
    SplitIsOptimal(items, []);
    assert Acceptable(Grouped([], items)[k]);
  }
}
