/** The storage keys that uploads generate, and which of them a restore accepts.

    A key starts with the project identifier as the request gave it.  The database reads it as a UUID,
    which allows either letter case, hyphens to be left out, and braces around it. */
module StorageKeys {
  import opened Options
  import opened DeletionJournal
  import opened DeletionBatches

  predicate AnyHex(c: char) {
    IsHex(c) || 'A' <= c <= 'F'
  }

  /** `n` groups of four hexadecimal digits, with or without a hyphen between two groups. */
  predicate Groups(s: string, n: nat) {
    if n == 0 then s == ""
    else
      && |s| >= 4 && AnyHex(s[0]) && AnyHex(s[1]) && AnyHex(s[2]) && AnyHex(s[3])
      && if n > 1 && |s| > 4 && s[4] == '-' then Groups(s[5..], n - 1) else Groups(s[4..], n - 1)
  }

  predicate PlainUuid(s: string) {
    Groups(s, 8)
  }

  /** What PostgreSQL reads as a UUID. */
  predicate UuidText(s: string) {
    PlainUuid(s) || (|s| >= 2 && s[0] == '{' && s[|s| - 1] == '}' && PlainUuid(s[1..|s| - 1]))
  }

  datatype Upload = Upload(project: string, year: nat, month: nat, day: nat, name: string, extension: string) {
    predicate Valid() {
      && UuidText(project) && year <= 9999 && month <= 12 && day <= 31
      && |name| == 32 && (forall c | c in name :: IsHex(c))
      && extension in {".jpg", ".png", ".webp", ".pdf"}
    }
  }

  /** `storeUploadedFile`: project, upload date and a random name. */
  function KeyOf(u: Upload): string {
    u.project + "/" + (Decimal(u.year, 4) + "/" + (Decimal(u.month, 2) + "/" + (Decimal(u.day, 2) + "/" + (u.name + u.extension))))
  }

  // ----- segments -----

  lemma {:induction false} OneSegment(s: string)
    requires '/' !in s
    ensures Segments(s) == [s]
  {
    if s != "" {
      assert s[0] in s && forall c | c in s[1..] :: c in s;
      OneSegment(s[1..]);
      assert [s[0]] + s[1..] == s;
    }
  }

  lemma {:induction false} FirstSegment(a: string, b: string)
    requires '/' !in a
    ensures Segments(a + "/" + b) == [a] + Segments(b)
  {
    if a == "" {
      assert a + "/" + b == "/" + b && ("/" + b)[1..] == b;
    } else {
      assert a[0] in a && forall c | c in a[1..] :: c in a;
      FirstSegment(a[1..], b);
      assert (a + "/" + b)[1..] == a[1..] + "/" + b && [a[0]] + a[1..] == a;
    }
  }

  /** A key is cut at its slashes, and no part may be empty or one or two dots. */
  lemma SegmentRules(a: string, b: string)
    requires '/' !in a
    ensures SafeSegments(a) <==> (a != "" && a != "." && a != "..")
    ensures SafeSegments(a + "/" + b) <==> (a != "" && a != "." && a != "..") && SafeSegments(b)
  {
    OneSegment(a);
    FirstSegment(a, b);
    assert a in Segments(a);
    var all := Segments(a + "/" + b);
    assert all[0] == a && all[1..] == Segments(b);
    if SafeSegments(a + "/" + b) {
      assert all[0] in all && forall part | part in Segments(b) :: part in all;
    } else {
      var part :| part in all && (part == "" || part == "." || part == "..");
      assert part == a || part in Segments(b);
    }
  }

  predicate Safe(part: string) {
    part != "" && part != "." && part != ".." && '/' !in part
  }

  lemma PrefixSafe(a: string, b: string)
    requires Safe(a) && SafeSegments(b)
    ensures SafeSegments(a + "/" + b)
  {
    FirstSegment(a, b);
  }

  lemma DigitsSafe(n: nat, width: nat)
    requires width >= 1
    ensures Safe(Decimal(n, width)) && forall c | c in Decimal(n, width) :: KeyChar(c)
  {
    var d := Decimal(n, width);
    assert d[0] in d && IsDigit(d[0]);
    assert !IsDigit('/') && !IsDigit('.');
  }

  lemma {:induction false} GroupsChars(s: string, n: nat)
    requires Groups(s, n)
    ensures (forall c | c in s :: AnyHex(c) || c == '-') && 4 * n <= |s| <= 5 * n
  {
    if n > 0 {
      var rest := if n > 1 && |s| > 4 && s[4] == '-' then s[5..] else s[4..];
      GroupsChars(rest, n - 1);
      assert forall c | c in s :: c == s[0] || c == s[1] || c == s[2] || c == s[3] || c == '-' || c in rest by {
        assert s == s[..4] + s[4..];
        assert |s| > 4 ==> s[4..] == [s[4]] + s[5..];
      }
    }
  }

  lemma ProjectChars(s: string)
    requires UuidText(s)
    ensures forall c | c in s :: AnyHex(c) || c == '-' || c == '{' || c == '}'
    ensures 32 <= |s| <= 42 && Safe(s)
    ensures PlainUuid(s) <==> s[0] != '{'
    ensures PlainUuid(s) ==> forall c | c in s :: KeyChar(c)
  {
    if PlainUuid(s) {
      GroupsChars(s, 8);
    } else {
      var body := s[1..|s| - 1];
      GroupsChars(body, 8);
      assert s == [s[0]] + body + [s[|s| - 1]];
    }
    assert !AnyHex('/') && !AnyHex('{');
  }

  lemma NameSafe(u: Upload)
    requires u.Valid()
    ensures Safe(u.name + u.extension) && |u.name + u.extension| <= 37
    ensures forall c | c in u.name + u.extension :: KeyChar(c)
  {
    assert !IsHex('/');
    assert forall c | c in u.extension :: KeyChar(c) && c != '/';
  }

  /** The parts of a generated key are safe, so the API stores, deletes and records it. */
  lemma KeyIsSafe(u: Upload)
    requires u.Valid()
    ensures SafeSegments(KeyOf(u)) && KeyOf(u)[0] == u.project[0]
  {
    ProjectChars(u.project);
    DigitsSafe(u.year, 4);
    DigitsSafe(u.month, 2);
    DigitsSafe(u.day, 2);
    NameSafe(u);
    var name := u.name + u.extension;
    OneSegment(name);
    PrefixSafe(Decimal(u.day, 2), name);
    PrefixSafe(Decimal(u.month, 2), Decimal(u.day, 2) + "/" + name);
    PrefixSafe(Decimal(u.year, 4), Decimal(u.month, 2) + "/" + (Decimal(u.day, 2) + "/" + name));
    PrefixSafe(u.project, Decimal(u.year, 4) + "/" + (Decimal(u.month, 2) + "/" + (Decimal(u.day, 2) + "/" + name)));
  }

  lemma DateLength(u: Upload)
    requires u.Valid()
    ensures |Decimal(u.year, 4)| == 4 && |Decimal(u.month, 2)| == 2 && |Decimal(u.day, 2)| == 2
  {
    DecimalLength(u.year, 4);
    DecimalLength(u.month, 2);
    DecimalLength(u.day, 2);
    assert Power10(2) == 100 && Power10(4) == 100 * Power10(2);
  }

  /** The API accepts every generated key; a restore accepts exactly those whose project identifier
      was given without braces. */
  lemma GeneratedKeys(u: Upload)
    requires u.Valid()
    ensures ApiAccepts(KeyOf(u))
    ensures RestoreAccepts(KeyOf(u)) <==> PlainUuid(u.project)
  {
    hide SafeSegments, UuidText, Groups;
    var key := KeyOf(u);
    KeyIsSafe(u);
    ProjectChars(u.project);
    DigitsSafe(u.year, 4);
    DigitsSafe(u.month, 2);
    DigitsSafe(u.day, 2);
    NameSafe(u);
    DateLength(u);
    KeyChars(u);
    assert !KeyChar('\0') && !KeyChar('\\') && !KeyChar('{') && !AnyHex('\0') && !AnyHex('\\');
    assert u.project[0] in key by { assert key[0] == u.project[0]; }
  }

  /** Every character of a key is one a restore accepts, unless it comes from the project. */
  lemma KeyChars(u: Upload)
    requires u.Valid()
    ensures forall c | c in KeyOf(u) :: KeyChar(c) || c in u.project
    ensures |KeyOf(u)| <= |u.project| + 60
  {
    hide SafeSegments, UuidText, Groups;
    DigitsSafe(u.year, 4);
    DigitsSafe(u.month, 2);
    DigitsSafe(u.day, 2);
    NameSafe(u);
    DateLength(u);
  }

  lemma {:induction false} ZeroGroups(n: nat)
    ensures Groups(seq(4 * n, _ => '0'), n)
  {
    if n > 0 {
      ZeroGroups(n - 1);
      assert seq(4 * n, _ => '0')[4..] == seq(4 * (n - 1), _ => '0');
    }
  }

  /** An upload for the project with the identifier zero, given in braces. */
  function BracedUpload(): Upload {
    Upload("{" + seq(32, _ => '0') + "}", 2026, 1, 2, seq(32, _ => '0'), ".pdf")
  }

  /** Such an upload is possible, and once its removal is recorded no restore loads the journal. */
  lemma BracedUploadStopsRestores(requests: seq<Request>, digest: string -> string)
    requires ForObject(KeyOf(BracedUpload())) in requests && !Collides(Promised(requests).objects, digest)
    ensures BracedUpload().Valid()
    ensures LoadedFrom(Written(requests, digest), digest) == None
  {
    var u := BracedUpload();
    BracedIsValid();
    GeneratedKeys(u);
    ProjectChars(u.project);
    hide KeyOf, BracedUpload, ApiAccepts, RestoreAccepts;
    var r := ForObject(KeyOf(u));
    RequestPromises(requests, KeyOf(u));
    RejectedKeyFailsTheLoad(requests, KeyOf(u), digest);
  }

  lemma BracedIsValid()
    ensures BracedUpload().Valid() && BracedUpload().project[0] == '{'
  {
    var zeros := seq(32, _ => '0');
    ZeroGroups(8);
    var p := "{" + zeros + "}";
    assert p[1..|p| - 1] == zeros;
  }

  lemma RequestPromises(requests: seq<Request>, key: string)
    requires ForObject(key) in requests && ApiAccepts(key)
    ensures key in Promised(requests).objects
  {
    assert Recorded(ForObject(key)).Some?;
  }
}
