/** The deletion ledger as files: the API writes one tombstone per deletion, and a restore loads
    them all and turns them into SQL. */
module DeletionJournal {
  import opened Options

  // ----- identifiers and keys -----

  function Lower(s: string): string {
    seq(|s|, i requires 0 <= i < |s| => if 'A' <= s[i] <= 'Z' then s[i] - 'A' + 'a' else s[i])
  }

  predicate IsHex(c: char) {
    '0' <= c <= '9' || 'a' <= c <= 'f'
  }

  /** `UUID_PATTERN`; the API matches the same pattern in any letter case and lowers it. */
  predicate IsUuid(id: string) {
    && |id| == 36
    && forall i | 0 <= i < 36 :: if i == 8 || i == 13 || i == 18 || i == 23 then id[i] == '-' else IsHex(id[i])
  }

  function Segments(key: string): (r: seq<string>)
    ensures |r| > 0
  {
    if key == [] then [""]
    else
      var rest := Segments(key[1..]);
      if key[0] == '/' then [""] + rest else [[key[0]] + rest[0]] + rest[1..]
  }

  predicate SafeSegments(key: string) {
    forall part | part in Segments(key) :: part != "" && part != "." && part != ".."
  }

  /** `cleanKey`: what the API stores, deletes and records. */
  predicate ApiAccepts(key: string) {
    key != "" && '\0' !in key && '\\' !in key && key[0] != '/' && SafeSegments(key)
  }

  predicate KeyChar(c: char) {
    'A' <= c <= 'Z' || 'a' <= c <= 'z' || '0' <= c <= '9' || c == '.' || c == '_' || c == '/' || c == '-'
  }

  /** `validate_storage_key`: what a restore accepts. */
  predicate RestoreAccepts(key: string) {
    1 <= |key| <= 512 && (forall c | c in key :: KeyChar(c)) && key[0] != '/' && SafeSegments(key)
  }

  // ----- the journal -----

  datatype Tombstone = AccountGone(version: nat, user: string) | ObjectGone(version: nat, key: string)

  /** Tombstones by their path below `tombstones/`. */
  type Journal = map<string, Tombstone>

  datatype Loaded = Loaded(accounts: set<string>, objects: set<string>)

  function PathOf(t: Tombstone, digest: string -> string): string {
    match t
    case AccountGone(_, user) => "accounts/" + user + ".json"
    case ObjectGone(_, key) => "objects/" + digest(key) + ".json"
  }

  predicate Sound(path: string, t: Tombstone, digest: string -> string) {
    && t.version == 1 && path == PathOf(t, digest)
    && match t { case AccountGone(_, user) => IsUuid(user) case ObjectGone(_, key) => RestoreAccepts(key) }
  }

  function Accounts(journal: Journal): set<string> {
    set p | p in journal && journal[p].AccountGone? :: journal[p].user
  }

  function Objects(journal: Journal): set<string> {
    set p | p in journal && journal[p].ObjectGone? :: journal[p].key
  }

  function LoadedFrom(journal: Journal, digest: string -> string): Option<Loaded> {
    if forall p | p in journal :: Sound(p, journal[p], digest)
    then Some(Loaded(Accounts(journal), Objects(journal)))
    else None
  }

  /** What a restore finds below `tombstones/`: tombstones, directories, and what it does not take:
      links, unreadable files, other schemas and kinds. */
  datatype Entry = Event(tombstone: Tombstone) | Directory | Unsupported

  type Entries = map<string, Entry>

  predicate EntrySound(path: string, e: Entry, digest: string -> string) {
    match e
    case Event(t) => Sound(path, t, digest)
    case Directory => path == "accounts" || path == "objects"
    case Unsupported => false
  }

  function LoadedEntries(entries: Entries, digest: string -> string): Option<Loaded> {
    if forall p | p in entries :: EntrySound(p, entries[p], digest)
    then Some(Loaded(set p | p in entries && entries[p].Event? && entries[p].tombstone.AccountGone? :: entries[p].tombstone.user,
                     set p | p in entries && entries[p].Event? && entries[p].tombstone.ObjectGone? :: entries[p].tombstone.key))
    else None
  }

  /** `load_tombstones`: the first unsound entry fails the restore. */
  method Load(entries: Entries, digest: string -> string) returns (r: Option<Loaded>)
    ensures r == LoadedEntries(entries, digest)
  {
    var accounts: set<string>, objects: set<string> := {}, {};
    var rest := entries.Keys;
    while rest != {}
      invariant rest <= entries.Keys
      invariant forall p | p in entries && p !in rest :: EntrySound(p, entries[p], digest)
      invariant accounts == set p | p in entries && p !in rest && entries[p].Event? && entries[p].tombstone.AccountGone? :: entries[p].tombstone.user
      invariant objects == set p | p in entries && p !in rest && entries[p].Event? && entries[p].tombstone.ObjectGone? :: entries[p].tombstone.key
      decreases rest
    {
      var path :| path in rest;
      match entries[path] {
        case Unsupported => return None;
        case Directory =>
          if path != "accounts" && path != "objects" { return None; }
        case Event(t) =>
          if t.version != 1 || path != PathOf(t, digest) { return None; }
          match t {
            case AccountGone(_, user) =>
              if !IsUuid(user) { return None; }
              accounts := accounts + {user};
            case ObjectGone(_, key) =>
              if !RestoreAccepts(key) { return None; }
              objects := objects + {key};
          }
      }
      rest := rest - {path};
    }
    var all := LoadedEntries(entries, digest);
    assert all.Some? && accounts == all.value.accounts && objects == all.value.objects;
    r := Some(Loaded(accounts, objects));
  }

  /** The journal as files on disk, with its directories. */
  function OnDisk(journal: Journal, directories: set<string>): Entries {
    (map p | p in journal :: Event(journal[p])) + map d | d in directories && d !in journal :: Directory
  }

  lemma DirectoriesAreSound(journal: Journal, directories: set<string>, digest: string -> string)
    requires directories <= {"accounts", "objects"} && directories !! journal.Keys
    ensures var entries := OnDisk(journal, directories);
            (forall p | p in entries :: EntrySound(p, entries[p], digest)) <==> (forall p | p in journal :: Sound(p, journal[p], digest))
  {
    hide Sound;
    var entries := OnDisk(journal, directories);
    assert forall p | p in journal :: p in entries && entries[p] == Event(journal[p]);
    forall p | p in journal ensures EntrySound(p, entries[p], digest) == Sound(p, journal[p], digest) {}
  }

  /** The directories that come with the files do not change what is loaded. */
  lemma DirectoriesDoNotMatter(journal: Journal, directories: set<string>, digest: string -> string)
    requires directories <= {"accounts", "objects"} && directories !! journal.Keys
    ensures LoadedEntries(OnDisk(journal, directories), digest) == LoadedFrom(journal, digest)
  {
    hide Sound, EntrySound;
    var entries := OnDisk(journal, directories);
    DirectoriesAreSound(journal, directories, digest);
    assert forall p | p in journal :: p in entries && entries[p] == Event(journal[p]);
    assert (set p | p in entries && entries[p].Event? && entries[p].tombstone.AccountGone? :: entries[p].tombstone.user) == Accounts(journal);
    assert (set p | p in entries && entries[p].Event? && entries[p].tombstone.ObjectGone? :: entries[p].tombstone.key) == Objects(journal);
  }

  /** A request to record a deletion: `RecordAccountDeletion` or `RecordObjectDeletion`. */
  datatype Request = ForAccount(user: string) | ForObject(key: string)

  function Recorded(r: Request): Option<Tombstone> {
    match r
    case ForAccount(user) => if IsUuid(Lower(user)) then Some(AccountGone(1, Lower(user))) else None
    case ForObject(key) => if ApiAccepts(key) then Some(ObjectGone(1, key)) else None
  }

  function Written(requests: seq<Request>, digest: string -> string): Journal {
    if requests == [] then map[]
    else
      var journal := Written(requests[..|requests| - 1], digest);
      match Recorded(requests[|requests| - 1])
      case None => journal
      case Some(t) => journal[PathOf(t, digest) := t]
  }

  /** The accounts and objects whose deletion was accepted for recording. */
  function Promised(requests: seq<Request>): Loaded {
    Loaded(set r | r in requests && r.ForAccount? && Recorded(r).Some? :: Lower(r.user),
           set r | r in requests && r.ForObject? && Recorded(r).Some? :: r.key)
  }

  lemma {:induction false} WrittenHolds(requests: seq<Request>, digest: string -> string)
    ensures var j := Written(requests, digest);
            && (forall r | r in requests && Recorded(r).Some? :: PathOf(Recorded(r).value, digest) in j)
            && (forall p | p in j :: p == PathOf(j[p], digest) && exists r :: r in requests && Recorded(r) == Some(j[p]))
  {
    if requests != [] {
      var n := |requests| - 1;
      WrittenHolds(requests[..n], digest);
      assert requests == requests[..n] + [requests[n]];
      assert forall r | r in requests[..n] :: r in requests;
    }
  }

  lemma SamePath(a: Tombstone, b: Tombstone, digest: string -> string)
    requires PathOf(a, digest) == PathOf(b, digest)
    ensures a.AccountGone? <==> b.AccountGone?
    ensures a.AccountGone? ==> a.user == b.user
    ensures a.ObjectGone? ==> digest(a.key) == digest(b.key)
  {
    assert PathOf(a, digest)[0] == if a.AccountGone? then 'a' else 'o';
    assert PathOf(b, digest)[0] == if b.AccountGone? then 'a' else 'o';
    if a.AccountGone? {
      Between("accounts/", a.user, b.user, ".json");
    } else {
      Between("objects/", digest(a.key), digest(b.key), ".json");
    }
  }

  lemma Between(before: string, x: string, y: string, after: string)
    requires before + x + after == before + y + after
    ensures x == y
  {
    var path := before + x + after;
    assert path[|before|..|path| - |after|] == x;
    assert path[|before|..|path| - |after|] == y;
  }

  predicate Collides(keys: set<string>, digest: string -> string) {
    exists a, b | a in keys && b in keys :: a != b && digest(a) == digest(b)
  }

  /** A recorded request leaves a tombstone of its kind; only a digest shared by two keys can have
      replaced it. */
  lemma RequestIsWritten(requests: seq<Request>, digest: string -> string, r: Request)
    requires r in requests && Recorded(r).Some?
    ensures var j, p := Written(requests, digest), PathOf(Recorded(r).value, digest);
            && p in j
            && (r.ForAccount? ==> j[p] == AccountGone(1, Lower(r.user)))
            && (r.ForObject? ==> j[p].ObjectGone? && digest(j[p].key) == digest(r.key))
  {
    hide IsUuid, ApiAccepts, Lower, Written;
    var j, p := Written(requests, digest), PathOf(Recorded(r).value, digest);
    WrittenHolds(requests, digest);
    SamePath(Recorded(r).value, j[p], digest);
    var r' :| r' in requests && Recorded(r') == Some(j[p]);
  }

  lemma WrittenWasRequested(requests: seq<Request>, digest: string -> string, p: string)
    requires p in Written(requests, digest)
    ensures var t := Written(requests, digest)[p];
            && t.version == 1 && p == PathOf(t, digest)
            && (t.AccountGone? ==> IsUuid(t.user) && t.user in Promised(requests).accounts)
            && (t.ObjectGone? ==> t.key in Promised(requests).objects)
  {
    hide Written, Lower;
    var j := Written(requests, digest);
    WrittenHolds(requests, digest);
    var r :| r in requests && Recorded(r) == Some(j[p]);
  }

  lemma AccountsAreWritten(requests: seq<Request>, digest: string -> string)
    ensures Accounts(Written(requests, digest)) == Promised(requests).accounts
  {
    hide Written, Lower;
    var j, all := Written(requests, digest), Promised(requests);
    forall x | x in Accounts(j) ensures x in all.accounts {
      var p :| p in j && j[p].AccountGone? && j[p].user == x;
      WrittenWasRequested(requests, digest, p);
    }
    forall x | x in all.accounts ensures x in Accounts(j) {
      var r :| r in requests && r.ForAccount? && Recorded(r).Some? && Lower(r.user) == x;
      RequestIsWritten(requests, digest, r);
    }
  }

  lemma ObjectsAreRequested(requests: seq<Request>, digest: string -> string)
    ensures Objects(Written(requests, digest)) <= Promised(requests).objects
  {
    hide Written, Lower;
    var j := Written(requests, digest);
    forall x | x in Objects(j) ensures x in Promised(requests).objects {
      var p :| p in j && j[p].ObjectGone? && j[p].key == x;
      WrittenWasRequested(requests, digest, p);
    }
  }

  lemma ObjectIsWritten(requests: seq<Request>, digest: string -> string, key: string) returns (p: string)
    requires key in Promised(requests).objects
    ensures var j := Written(requests, digest);
            p == PathOf(ObjectGone(1, key), digest) && p in j && j[p].ObjectGone? && digest(j[p].key) == digest(key)
  {
    hide Written, Lower, ApiAccepts;
    var r :| r in requests && r.ForObject? && Recorded(r).Some? && r.key == key;
    p := PathOf(ObjectGone(1, key), digest);
    RequestIsWritten(requests, digest, r);
  }

  lemma LoadsWhenAccepted(requests: seq<Request>, digest: string -> string)
    requires forall k | k in Promised(requests).objects :: RestoreAccepts(k)
    ensures LoadedFrom(Written(requests, digest), digest).Some?
  {
    hide Written, Promised, RestoreAccepts, IsUuid;
    var j := Written(requests, digest);
    forall p | p in j ensures Sound(p, j[p], digest) { WrittenWasRequested(requests, digest, p); }
  }

  lemma LoadedIsAccepted(requests: seq<Request>, digest: string -> string)
    requires LoadedFrom(Written(requests, digest), digest) == Some(Promised(requests))
    ensures (forall k | k in Promised(requests).objects :: RestoreAccepts(k)) && !Collides(Promised(requests).objects, digest)
  {
    hide Written, Promised, RestoreAccepts, IsUuid;
    var j, keys := Written(requests, digest), Promised(requests).objects;
    forall k | k in keys
      ensures RestoreAccepts(k)
      ensures exists p :: p in j && p == PathOf(ObjectGone(1, k), digest) && j[p] == ObjectGone(1, k)
    {
      assert k in Objects(j);
      var p :| p in j && j[p].ObjectGone? && j[p].key == k;
      assert Sound(p, j[p], digest);
    }
    forall a, b | a in keys && b in keys && digest(a) == digest(b) ensures a == b {
      var p :| p in j && p == PathOf(ObjectGone(1, a), digest) && j[p] == ObjectGone(1, a);
      var q :| q in j && q == PathOf(ObjectGone(1, b), digest) && j[q] == ObjectGone(1, b);
      assert p == q;
    }
  }

  /** Loading gives back exactly the accounts and objects that were recorded, if and only if a
      restore accepts every recorded key and no two of them share a digest. */
  lemma JournalRoundTrip(requests: seq<Request>, digest: string -> string)
    ensures var keys := Promised(requests).objects;
            LoadedFrom(Written(requests, digest), digest) == Some(Promised(requests))
            <==> (forall k | k in keys :: RestoreAccepts(k)) && !Collides(keys, digest)
  {
    hide Written, Promised, RestoreAccepts, IsUuid;
    var j, all := Written(requests, digest), Promised(requests);
    AccountsAreWritten(requests, digest);
    ObjectsAreRequested(requests, digest);
    if (forall k | k in all.objects :: RestoreAccepts(k)) && !Collides(all.objects, digest) {
      LoadsWhenAccepted(requests, digest);
      forall k | k in all.objects ensures k in Objects(j) {
        var p := ObjectIsWritten(requests, digest, k);
        assert j[p].key in Objects(j);
      }
      assert Objects(j) == all.objects;
    }
    if LoadedFrom(j, digest) == Some(all) { LoadedIsAccepted(requests, digest); }
  }

  /** The API records more than a restore accepts: any such key, once recorded, fails the load. */
  lemma RejectedKeyFailsTheLoad(requests: seq<Request>, key: string, digest: string -> string)
    requires key in Promised(requests).objects && !RestoreAccepts(key)
    requires !Collides(Promised(requests).objects, digest)
    ensures LoadedFrom(Written(requests, digest), digest) == None
  {
    hide Written, Promised, RestoreAccepts, IsUuid;
    var j := Written(requests, digest);
    var p := ObjectIsWritten(requests, digest, key);
    WrittenWasRequested(requests, digest, p);
    assert j[p].key == key;
    assert !Sound(p, j[p], digest);
  }

  /** The two rules differ exactly in the characters and the length they allow: both want safe parts,
      and so neither an empty key nor a leading slash. */
  lemma AcceptedKeys(key: string)
    ensures RestoreAccepts(key) <==> ApiAccepts(key) && |key| <= 512 && forall c | c in key :: KeyChar(c)
    ensures RestoreAccepts(key) <==>
              SafeSegments(key) && |key| <= 512
              && forall c | c in key ::
                   'A' <= c <= 'Z' || 'a' <= c <= 'z' || '0' <= c <= '9' || c == '.' || c == '_' || c == '-' || c == '/'
    ensures ApiAccepts(key) <==> SafeSegments(key) && forall c | c in key :: c != '\0' && c != '\\'
  {
    assert !KeyChar('\0') && !KeyChar('\\');
    if SafeSegments(key) { SafeIsPlain(key); }
    hide SafeSegments;
  }

  lemma SafeIsPlain(key: string)
    requires SafeSegments(key)
    ensures key != "" && key[0] != '/'
  {
    assert Segments(key)[0] in Segments(key);
  }

  /** The place of a group separator in a UUID. */
  predicate Hyphen(i: int) {
    i == 8 || i == 13 || i == 18 || i == 23
  }

  /** The API records an account whose identifier is a hyphenated UUID in either letter case, under its
      lower-case form; nothing else. */
  lemma AccountIsRecorded(user: string)
    ensures Recorded(ForAccount(user)).Some? <==>
              |user| == 36
              && forall i | 0 <= i < 36 ::
                   if Hyphen(i) then user[i] == '-'
                   else '0' <= user[i] <= '9' || 'a' <= user[i] <= 'f' || 'A' <= user[i] <= 'F'
    ensures Recorded(ForAccount(user)).Some? ==>
              var t := Recorded(ForAccount(user)).value;
              && t.AccountGone? && t.version == 1 && |t.user| == 36
              && forall i | 0 <= i < 36 ::
                   t.user[i] == match user[i]
                                case 'A' => 'a' case 'B' => 'b' case 'C' => 'c' case 'D' => 'd' case 'E' => 'e' case 'F' => 'f' case c => c
  {
    var low := Lower(user);
    assert |low| == |user|;
    forall i | 0 <= i < |user|
      ensures low[i] == '-' <==> user[i] == '-'
      ensures IsHex(low[i]) <==> '0' <= user[i] <= '9' || 'a' <= user[i] <= 'f' || 'A' <= user[i] <= 'F'
    {
    }
    forall i | 0 <= i < |user| && (user[i] == '-' || IsHex(low[i]))
      ensures low[i] == match user[i]
                        case 'A' => 'a' case 'B' => 'b' case 'C' => 'c' case 'D' => 'd' case 'E' => 'e' case 'F' => 'f' case c => c
    {
    }
  }

  /** A restore takes a tombstone of version 1 at the path that its contents determine. */
  lemma TombstoneRules(path: string, t: Tombstone, digest: string -> string)
    ensures EntrySound(path, Event(t), digest) <==>
              t.version == 1 &&
              match t
              case AccountGone(_, user) => path == "accounts/" + user + ".json" && Recorded(ForAccount(user)) == Some(t)
              case ObjectGone(_, key) => path == "objects/" + digest(key) + ".json" && RestoreAccepts(key)
    ensures EntrySound(path, Directory, digest) <==> path in {"accounts", "objects"}
    ensures !EntrySound(path, Unsupported, digest)
  {
    if t.AccountGone? { LowerOfUuid(t.user); }
  }

  lemma LowerOfUuid(user: string)
    ensures IsUuid(user) <==> IsUuid(Lower(user)) && Lower(user) == user
  {
  }

  // ----- replaying -----

  datatype Statement = DeleteUploads(user: string) | DeleteUser(user: string) | DeletePath(key: string)

  /** `files`, with the owner of the project each row belongs to. */
  datatype FileRow = FileRow(path: string, uploader: string, owner: string)

  datatype Tables = Tables(users: set<string>, files: map<nat, FileRow>)

  function Execute(db: Tables, s: Statement): Tables {
    match s
    case DeleteUploads(user) => db.(files := map f | f in db.files && db.files[f].uploader != user :: db.files[f])
    case DeleteUser(user) =>
      db.(users := db.users - {user}, files := map f | f in db.files && db.files[f].owner != user :: db.files[f])
    case DeletePath(key) => db.(files := map f | f in db.files && db.files[f].path != key :: db.files[f])
  }

  function ExecuteAll(db: Tables, statements: seq<Statement>): Tables {
    if statements == [] then db else Execute(ExecuteAll(db, statements[..|statements| - 1]), statements[|statements| - 1])
  }

  /** The tables without the given accounts, their files and the given paths. */
  function Without(db: Tables, accounts: set<string>, uploaders: set<string>, objects: set<string>): Tables {
    Tables(db.users - accounts,
           map f | f in db.files && db.files[f].owner !in accounts && db.files[f].uploader !in uploaders
                   && db.files[f].path !in objects :: db.files[f])
  }

  lemma ExecuteSnoc(db: Tables, statements: seq<Statement>, s: Statement)
    ensures ExecuteAll(db, statements + [s]) == Execute(ExecuteAll(db, statements), s)
  {
    assert (statements + [s])[..|statements|] == statements;
  }

  /** `write_replay_artifacts`: executing its SQL removes exactly the journaled accounts with their
      uploads and projects' files, and the files whose object was deleted. */
  method ReplayStatements(accounts: set<string>, objects: set<string>) returns (statements: seq<Statement>)
    ensures forall db :: ExecuteAll(db, statements) == Without(db, accounts, accounts, objects)
  {
    statements := [];
    var todo, done: set<string> := accounts, {};
    while todo != {}
      invariant done == accounts - todo && todo <= accounts
      invariant forall db :: ExecuteAll(db, statements) == Without(db, done, done, {})
      decreases todo
    {
      var user :| user in todo;
      ghost var before := statements;
      statements := statements + [DeleteUploads(user)] + [DeleteUser(user)];
      forall db ensures ExecuteAll(db, statements) == Without(db, done + {user}, done + {user}, {}) {
        ExecuteSnoc(db, before, DeleteUploads(user));
        ExecuteSnoc(db, before + [DeleteUploads(user)], DeleteUser(user));
        WithoutMore(db, done, done, {}, user);
      }
      todo, done := todo - {user}, done + {user};
    }
    assert done == accounts;
    var keys, removed: set<string> := objects, {};
    while keys != {}
      invariant removed == objects - keys && keys <= objects
      invariant forall db :: ExecuteAll(db, statements) == Without(db, accounts, accounts, removed)
      decreases keys
    {
      var key :| key in keys;
      ghost var before := statements;
      statements := statements + [DeletePath(key)];
      forall db ensures ExecuteAll(db, statements) == Without(db, accounts, accounts, removed + {key}) {
        ExecuteSnoc(db, before, DeletePath(key));
        WithoutMore(db, accounts, accounts, removed, key);
      }
      keys, removed := keys - {key}, removed + {key};
    }
    assert removed == objects;
  }

  lemma WithoutMore(db: Tables, accounts: set<string>, uploaders: set<string>, objects: set<string>, x: string)
    ensures Execute(Without(db, accounts, uploaders, objects), DeleteUploads(x)) == Without(db, accounts, uploaders + {x}, objects)
    ensures Execute(Without(db, accounts, uploaders + {x}, objects), DeleteUser(x)) == Without(db, accounts + {x}, uploaders + {x}, objects)
    ensures Execute(Without(db, accounts, uploaders, objects), DeletePath(x)) == Without(db, accounts, uploaders, objects + {x})
  {
  }
}
