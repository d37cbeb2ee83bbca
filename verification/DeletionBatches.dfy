/** The directory of S3 delete requests that a restore writes, reads back and rewrites. */
module DeletionBatches {
  import opened Options
  import opened DeletionJournal

  // ----- file names -----

  predicate IsDigit(c: char) {
    '0' <= c <= '9'
  }

  function DigitOf(n: nat): char
    requires n < 10
  {
    '0' + n as char
  }

  /** At least `width` decimal digits, with leading zeros: the format `06`. */
  function Decimal(n: nat, width: nat): (r: string)
    ensures |r| >= width && forall c | c in r :: IsDigit(c)
    decreases n + width
  {
    if n == 0 && width == 0 then ""
    else Decimal(n / 10, if width > 0 then width - 1 else 0) + [DigitOf(n % 10)]
  }

  function Value(digits: string): nat
    requires forall c | c in digits :: IsDigit(c)
  {
    if digits == "" then 0
    else
      assert IsDigit(digits[|digits| - 1]);
      10 * Value(digits[..|digits| - 1]) + digits[|digits| - 1] as nat - '0' as nat
  }

  function Power10(n: nat): nat {
    if n == 0 then 1 else 10 * Power10(n - 1)
  }

  lemma {:induction false} DecimalValue(n: nat, width: nat)
    ensures Value(Decimal(n, width)) == n
    decreases n + width
  {
    if n != 0 || width != 0 {
      var rest := if width > 0 then width - 1 else 0;
      DecimalValue(n / 10, rest);
      var r := Decimal(n, width);
      assert r[..|r| - 1] == Decimal(n / 10, rest) && r[|r| - 1] == DigitOf(n % 10);
    }
  }

  /** The name grows beyond the width exactly when the number does. */
  lemma {:induction false} DecimalLength(n: nat, width: nat)
    ensures |Decimal(n, width)| == width <==> n < Power10(width)
    decreases n + width
  {
    if width > 0 { DecimalLength(n / 10, width - 1); }
  }

  function BatchName(n: nat): string {
    "delete-" + Decimal(n, 6) + ".json"
  }

  predicate IsBatchName(name: string) {
    && |name| == 18 && name[..7] == "delete-" && name[13..] == ".json"
    && forall i | 7 <= i < 13 :: IsDigit(name[i])
  }

  lemma BatchNames(m: nat, n: nat)
    ensures BatchName(m) == BatchName(n) ==> m == n
  {
    if BatchName(m) == BatchName(n) {
      Between("delete-", Decimal(m, 6), Decimal(n, 6), ".json");
      DecimalValue(m, 6);
      DecimalValue(n, 6);
    }
  }

  lemma FirstName()
    ensures BatchName(1) == "delete-" + "000001" + ".json"
  {
    assert Decimal(0, 1) == "0" && Decimal(0, 2) == Decimal(0, 1) + "0" && Decimal(0, 3) == Decimal(0, 2) + "0";
    assert Decimal(0, 4) == Decimal(0, 3) + "0" && Decimal(0, 5) == Decimal(0, 4) + "0";
    assert Decimal(1, 6) == "000001";
  }

  /** Six digits are enough for 999999 files. */
  lemma BatchNameFits(n: nat)
    ensures IsBatchName(BatchName(n)) <==> n <= 999999
    ensures BatchName(1) == "delete-" + "000001" + ".json"
  {
    FirstName();
    DecimalLength(n, 6);
    assert Power10(2) == 100 && Power10(4) == 100 * Power10(2) && Power10(6) == 100 * Power10(4);
    var name := BatchName(n);
    assert name[..7] == "delete-";
    if |name| == 18 {
      assert name[13..] == ".json";
      assert forall i | 7 <= i < 13 :: name[i] == Decimal(n, 6)[i - 7];
    }
  }

  // ----- batches -----

  /** File name to the keys of the request in it. */
  type Files = map<string, seq<string>>

  /** The number of requests for `n` keys. */
  function Count(n: nat): nat { (n + 999) / 1000 }

  /** Request `k` (from zero) of the sorted keys. */
  function Slice(keys: seq<string>, k: nat): seq<string>
    requires k < Count(|keys|)
  {
    keys[k * 1000..if (k + 1) * 1000 < |keys| then (k + 1) * 1000 else |keys|]
  }

  function Batches(keys: seq<string>, n: nat): Files
    requires n <= Count(|keys|)
  {
    if n == 0 then map[] else Batches(keys, n - 1)[BatchName(n) := Slice(keys, n - 1)]
  }

  function Listed(files: Files): set<string> {
    set f, k | f in files && k in files[f] :: k
  }

  predicate Readable(files: Files) {
    forall f | f in files :: IsBatchName(f) && forall k | k in files[f] :: RestoreAccepts(k)
  }

  ghost predicate Lists(keys: seq<string>, objects: set<string>) {
    && (forall k :: k in keys <==> k in objects)
    && (forall i, j | 0 <= i < j < |keys| :: keys[i] != keys[j])
  }

  class BatchDirectory {
    var files: Files

    constructor ()
      ensures files == map[]
    {
      files := map[];
    }

    /** `write_delete_batches`; `keys` are the objects in sorted order. */
    method Write(keys: seq<string>) returns (ok: bool)
      modifies this
      ensures ok <==> forall f | f in old(files) :: IsBatchName(f)
      ensures ok ==> files == Batches(keys, Count(|keys|))
    {
      var names := files.Keys;
      while names != {}
        invariant names <= old(files).Keys && files == old(files) - (old(files).Keys - names)
        invariant forall f | f in old(files) && f !in names :: IsBatchName(f)
        decreases names
      {
        var name :| name in names;
        if !IsBatchName(name) { return false; }
        files := files - {name};
        names := names - {name};
      }
      var index := 0;
      while index < |keys|
        invariant index % 1000 == 0 && index / 1000 <= Count(|keys|)
        invariant files == Batches(keys, index / 1000)
        decreases |keys| - index
      {
        var batch := keys[index..if index + 1000 < |keys| then index + 1000 else |keys|];
        SliceAt(keys, index);
        files := files[BatchName(index / 1000 + 1) := batch];
        index := index + 1000;
      }
      ok := true;
    }

    /** `read_delete_batch_keys`. */
    method Read() returns (r: Option<set<string>>)
      ensures r == if Readable(files) then Some(Listed(files)) else None
    {
      var objects: set<string> := {};
      var names := files.Keys;
      while names != {}
        invariant names <= files.Keys
        invariant forall f | f in files && f !in names :: IsBatchName(f) && forall k | k in files[f] :: RestoreAccepts(k)
        invariant objects == set f, k | f in files && f !in names && k in files[f] :: k
        decreases names
      {
        var name :| name in names;
        if !IsBatchName(name) { return None; }
        var batch := files[name];
        for i := 0 to |batch|
          invariant forall k | k in batch[..i] :: RestoreAccepts(k)
        {
          if !RestoreAccepts(batch[i]) {
            assert batch[i] in files[name];
            return None;
          }
        }
        assert batch[..|batch|] == batch;
        objects := objects + set k | k in batch;
        names := names - {name};
      }
      assert objects == Listed(files);
      r := Some(objects);
    }

    /** `prepare_outbox_replay_artifacts`: adds the paths queued in the restored outbox.  `sorted`
        puts the combined objects in order. */
    method AddQueued(queued: seq<string>, sorted: set<string> -> seq<string>) returns (ok: bool)
      requires forall s :: Lists(sorted(s), s)
      modifies this
      ensures ok <==> (forall k | k in queued :: RestoreAccepts(k)) && old(Readable(files))
      ensures ok ==> var keys := sorted(old(Listed(files)) + set k | k in queued);
                     files == Batches(keys, Count(|keys|))
    {
      for i := 0 to |queued|
        invariant files == old(files)
        invariant forall k | k in queued[..i] :: RestoreAccepts(k)
      {
        if !RestoreAccepts(queued[i]) { return false; }
      }
      assert queued[..|queued|] == queued;
      var objects := Read();
      if objects == None { return false; }
      var keys := sorted(objects.value + set k | k in queued);
      ok := Write(keys);
    }
  }

  lemma SliceAt(keys: seq<string>, index: nat)
    requires index < |keys| && index % 1000 == 0
    ensures var k := index / 1000;
            && k < Count(|keys|) && k * 1000 == index && (index + 1000) / 1000 == k + 1 && (index + 1000) % 1000 == 0
            && Slice(keys, k) == keys[index..if index + 1000 < |keys| then index + 1000 else |keys|]
  {
  }

  // ----- the round trip -----

  lemma {:induction false} BatchesNamed(keys: seq<string>, n: nat)
    requires n <= Count(|keys|)
    ensures forall f :: f in Batches(keys, n) <==> exists k :: 1 <= k <= n && f == BatchName(k)
    ensures forall k | 1 <= k <= n :: Batches(keys, n)[BatchName(k)] == Slice(keys, k - 1)
  {
    hide BatchName, Slice;
    if n > 0 {
      BatchesNamed(keys, n - 1);
      forall k | 1 <= k < n ensures BatchName(k) != BatchName(n) { BatchNames(k, n); }
    }
  }

  /** No key is lost or added, and every request has between one and a thousand keys. */
  lemma BatchesHold(keys: seq<string>)
    ensures var files := Batches(keys, Count(|keys|));
            && Listed(files) == (set k | k in keys)
            && forall f | f in files :: 1 <= |files[f]| <= 1000
  {
    var n := Count(|keys|);
    var files := Batches(keys, n);
    BatchesNamed(keys, n);
    forall k | k in keys ensures k in Listed(files) {
      var i :| 0 <= i < |keys| && keys[i] == k;
      KeyInSlice(keys, i);
      assert BatchName(i / 1000 + 1) in files;
    }
    forall f | f in files ensures 1 <= |files[f]| <= 1000 && forall k | k in files[f] :: k in keys {
      var k :| 1 <= k <= n && f == BatchName(k);
      SliceLength(keys, k - 1);
    }
  }

  lemma KeyInSlice(keys: seq<string>, i: nat)
    requires i < |keys|
    ensures i / 1000 < Count(|keys|) && keys[i] in Slice(keys, i / 1000)
  {
    var k := i / 1000;
    assert k * 1000 + i % 1000 == i && i < (k + 1) * 1000;
    assert Slice(keys, k)[i % 1000] == keys[k * 1000 + i % 1000];
  }

  lemma SliceLength(keys: seq<string>, k: nat)
    requires k < Count(|keys|)
    ensures 1 <= |Slice(keys, k)| <= 1000 && forall x | x in Slice(keys, k) :: x in keys
  {
  }

  /** What is written can be read back whole if and only if every key is acceptable and 999999
      requests are enough; and it never reads back as anything else. */
  lemma {:induction false} BatchRoundTrip(keys: seq<string>)
    ensures var files := Batches(keys, Count(|keys|));
            && Listed(files) == (set k | k in keys)
            && (Readable(files) <==> (forall k | k in keys :: RestoreAccepts(k)) && Count(|keys|) <= 999999)
  {
    hide RestoreAccepts, IsBatchName, BatchName;
    var n := Count(|keys|);
    var files := Batches(keys, n);
    BatchesHold(keys);
    BatchesNamed(keys, n);
    forall k ensures IsBatchName(BatchName(k)) <==> k <= 999999 { BatchNameFits(k); }
    if n > 999999 { assert BatchName(n) in files; }
    forall k | k in keys ensures exists f :: f in files && k in files[f] { assert k in Listed(files); }
    forall f, k | f in files && k in files[f] ensures k in keys { assert k in Listed(files); }
  }

  /** A whole restore: with the journaled objects written and the queued ones added, the requests
      delete exactly the union of both, or the restore stops. */
  method PrepareRestore(objects: set<string>, queued: seq<string>, sorted: set<string> -> seq<string>)
      returns (directory: BatchDirectory, ok: bool)
    requires forall s :: Lists(sorted(s), s)
    requires forall k | k in objects :: RestoreAccepts(k)
    ensures ok <==> (forall k | k in queued :: RestoreAccepts(k)) && Count(|sorted(objects)|) <= 999999
    ensures ok ==> Listed(directory.files) == objects + set k | k in queued
    ensures ok ==> forall f | f in directory.files :: 1 <= |directory.files[f]| <= 1000
  {
    directory := new BatchDirectory();
    var keys := sorted(objects);
    var _ := directory.Write(keys);
    BatchRoundTrip(keys);
    ok := directory.AddQueued(queued, sorted);
    if ok {
      var all := objects + set k | k in queued;
      assert (set k | k in keys) == objects;
      BatchesHold(sorted(all));
      assert (set k | k in sorted(all)) == all;
    }
  }
}
