/** Asking AI providers about every chunk at once, and merging what they answer. */
module ExpenseSearch {
  import opened Options
  import opened ExpenseChunks

  /** How many chunks may be with a provider at the same time. */
  function Slots(): nat { 4 }

  datatype Provider = Provider(name: string, model: string)

  datatype Reply = Reply(ids: seq<string>, summary: string)

  datatype Outcome = Failed | Answered(reply: Reply, provider: Provider)

  // ----- one chunk: the first provider that answers -----

  /** What happens when a provider's turn comes: the search is cancelled, or it is called. */
  datatype Turn = Cancelled | Called(reply: Option<Reply>)

  /** Provider `k` answers, after every earlier one was called and failed. */
  predicate AnswersFirst(turns: seq<Turn>, k: nat) {
    && k < |turns| && turns[k].Called? && turns[k].reply.Some?
    && forall j: nat | j < k :: turns[j] == Called(None)
  }

  /** The outcome when the providers before `k` have failed. */
  function FirstAnswer(providers: seq<Provider>, turns: seq<Turn>, k: nat): Outcome
    requires |turns| == |providers| && k <= |providers|
    decreases |providers| - k
  {
    if k == |providers| || turns[k].Cancelled? then Failed
    else if turns[k].reply.Some? then Answered(turns[k].reply.value, providers[k])
    else FirstAnswer(providers, turns, k + 1)
  }

  /** `runExpenseAIProviders`. */
  method AskProviders(providers: seq<Provider>, turns: seq<Turn>) returns (r: Outcome)
    requires |turns| == |providers|
    ensures r == FirstAnswer(providers, turns, 0)
    ensures forall k: nat | AnswersFirst(turns, k) :: r == Answered(turns[k].reply.value, providers[k])
    ensures r.Answered? ==> exists k :: AnswersFirst(turns, k)
  {
    for i := 0 to |providers|
      invariant forall j: nat | j < i :: turns[j] == Called(None)
      invariant FirstAnswer(providers, turns, 0) == FirstAnswer(providers, turns, i)
    {
      if turns[i].Cancelled? {
        assert turns[i] != Called(None);
        return Failed;
      }
      if turns[i].reply.Some? {
        assert AnswersFirst(turns, i);
        return Answered(turns[i].reply.value, providers[i]);
      }
    }
    return Failed;
  }

  // ----- all chunks: goroutines, a semaphore and one result slot each -----

  /** What the world does to a chunk: the search is cancelled while it waits for a slot, or each
      provider's turn comes to something. */
  datatype Fate = GivesUp | Asks(turns: seq<Turn>)

  predicate WorldFor(world: seq<Fate>, providers: seq<Provider>) {
    providers != [] && forall f | f in world && f.Asks? :: |f.turns| == |providers|
  }

  /** What a chunk comes to by itself. */
  function OutcomeOf(providers: seq<Provider>, fate: Fate): Outcome
    requires fate.Asks? ==> |fate.turns| == |providers|
  {
    match fate case GivesUp => Failed case Asks(turns) => FirstAnswer(providers, turns, 0)
  }

  /** A goroutine: before its slot, holding one with `asked` providers tried, or done. */
  datatype Task = Waiting | Holding(asked: nat) | Done(outcome: Outcome)

  /** The steps of a goroutine: take a slot, ask the next provider, or give up waiting. */
  datatype Event = Acquire(task: nat) | Ask(task: nat) | GiveUp(task: nat)

  function Holders(tasks: seq<Task>): nat {
    if tasks == [] then 0 else Holders(tasks[1..]) + if tasks[0].Holding? then 1 else 0
  }

  function Asked(providers: seq<Provider>, turns: seq<Turn>, k: nat): Task
    requires k < |providers| == |turns|
  {
    match turns[k]
    case Cancelled => Done(Failed)
    case Called(Some(reply)) => Done(Answered(reply, providers[k]))
    case Called(None) => if k + 1 == |providers| then Done(Failed) else Holding(k + 1)
  }

  function Step(world: seq<Fate>, providers: seq<Provider>, tasks: seq<Task>, e: Event): (r: seq<Task>)
    requires WorldFor(world, providers) && |tasks| == |world|
    ensures |r| == |tasks|
  {
    if e.task >= |tasks| then tasks
    else match e
      case Acquire(i) => if tasks[i].Waiting? && world[i].Asks? && Holders(tasks) < Slots() then tasks[i := Holding(0)] else tasks
      case Ask(i) =>
        if tasks[i].Holding? && world[i].Asks? && tasks[i].asked < |providers|
        then tasks[i := Asked(providers, world[i].turns, tasks[i].asked)] else tasks
      case GiveUp(i) => if tasks[i].Waiting? && world[i].GivesUp? then tasks[i := Done(Failed)] else tasks
  }

  /** The goroutines after some interleaving of their steps. */
  function Scheduled(world: seq<Fate>, providers: seq<Provider>, events: seq<Event>): (r: seq<Task>)
    requires WorldFor(world, providers)
    ensures |r| == |world|
  {
    if events == [] then seq(|world|, _ => Waiting)
    else Step(world, providers, Scheduled(world, providers, events[..|events| - 1]), events[|events| - 1])
  }

  lemma {:induction false} HoldersUpdate(tasks: seq<Task>, i: nat, t: Task)
    requires i < |tasks|
    ensures Holders(tasks[i := t]) == Holders(tasks) - (if tasks[i].Holding? then 1 else 0) + (if t.Holding? then 1 else 0)
  {
    if i == 0 {
      assert tasks[0 := t][1..] == tasks[1..];
    } else {
      HoldersUpdate(tasks[1..], i - 1, t);
      assert tasks[i := t][1..] == tasks[1..][i - 1 := t];
    }
  }

  lemma {:induction false} NobodyHolds(tasks: seq<Task>)
    requires forall t | t in tasks :: !t.Holding?
    ensures Holders(tasks) == 0
  {
    if tasks != [] { NobodyHolds(tasks[1..]); }
  }

  /** At most four chunks are with a provider at any moment of any interleaving. */
  lemma {:induction false} SlotsAreRespected(world: seq<Fate>, providers: seq<Provider>, events: seq<Event>)
    requires WorldFor(world, providers)
    ensures Holders(Scheduled(world, providers, events)) <= 4
  {
    if events == [] {
      NobodyHolds(seq(|world|, _ => Waiting));
    } else {
      var e := events[|events| - 1];
      var tasks := Scheduled(world, providers, events[..|events| - 1]);
      SlotsAreRespected(world, providers, events[..|events| - 1]);
      if e.task < |world| { HoldersUpdate(tasks, e.task, Step(world, providers, tasks, e)[e.task]); }
    }
  }

  function HoldingAt(tasks: seq<Task>): set<nat> {
    set i: nat | i < |tasks| && tasks[i].Holding?
  }

  lemma {:induction false} HoldersAre(tasks: seq<Task>)
    ensures Holders(tasks) == |HoldingAt(tasks)|
  {
    if tasks != [] {
      var n := |tasks| - 1;
      HoldersAre(tasks[..n]);
      HoldersSnoc(tasks);
      assert HoldingAt(tasks) == if tasks[n].Holding? then HoldingAt(tasks[..n]) + {n} else HoldingAt(tasks[..n]);
    }
  }

  lemma {:induction false} HoldersSnoc(tasks: seq<Task>)
    requires tasks != []
    ensures Holders(tasks) == Holders(tasks[..|tasks| - 1]) + if tasks[|tasks| - 1].Holding? then 1 else 0
  {
    if |tasks| > 1 {
      HoldersSnoc(tasks[1..]);
      assert tasks[1..][..|tasks| - 2] == tasks[..|tasks| - 1][1..];
    }
  }

  /** A waiting chunk gets a slot exactly when fewer than four have one. */
  lemma SlotIsGranted(world: seq<Fate>, providers: seq<Provider>, tasks: seq<Task>, i: nat)
    requires WorldFor(world, providers) && |tasks| == |world| && i < |world| && tasks[i] == Waiting && world[i].Asks?
    ensures Step(world, providers, tasks, Acquire(i)) == if |HoldingAt(tasks)| < 4 then tasks[i := Holding(0)] else tasks
  {
    HoldersAre(tasks);
  }

  /** What a goroutine has found out agrees with what its chunk comes to by itself. */
  predicate OnCourse(providers: seq<Provider>, fate: Fate, t: Task)
    requires fate.Asks? ==> |fate.turns| == |providers|
  {
    match t
    case Waiting => true
    case Holding(k) => fate.Asks? && k < |providers| && FirstAnswer(providers, fate.turns, k) == OutcomeOf(providers, fate)
    case Done(outcome) => outcome == OutcomeOf(providers, fate)
  }

  lemma AskedOnCourse(providers: seq<Provider>, fate: Fate, k: nat)
    requires fate.Asks? && k < |providers| == |fate.turns| && OnCourse(providers, fate, Holding(k))
    ensures OnCourse(providers, fate, Asked(providers, fate.turns, k))
  {
    assert FirstAnswer(providers, fate.turns, |providers|) == Failed;
  }

  /** In whatever order the goroutines run, a finished chunk has in its own slot the outcome that its
      providers' turns come to. */
  lemma {:induction false} ScheduleDoesNotMatter(world: seq<Fate>, providers: seq<Provider>, events: seq<Event>, i: nat)
    requires WorldFor(world, providers) && i < |world|
    ensures OnCourse(providers, world[i], Scheduled(world, providers, events)[i])
  {
    if events != [] {
      ScheduleDoesNotMatter(world, providers, events[..|events| - 1], i);
      var t := Scheduled(world, providers, events[..|events| - 1])[i];
      if t.Holding? && world[i].Asks? { AskedOnCourse(providers, world[i], t.asked); }
    }
  }

  /** As long as a chunk is not done some goroutine can move, so every search can finish. */
  lemma NeverStuck(world: seq<Fate>, providers: seq<Provider>, events: seq<Event>, i: nat) returns (e: Event)
    requires WorldFor(world, providers) && i < |world| && !Scheduled(world, providers, events)[i].Done?
    ensures var tasks := Scheduled(world, providers, events); Step(world, providers, tasks, e) != tasks
  {
    var tasks := Scheduled(world, providers, events);
    if j: nat :| j < |tasks| && tasks[j].Holding? {
      ScheduleDoesNotMatter(world, providers, events, j);
      e := Ask(j);
      assert Step(world, providers, tasks, e)[j] != tasks[j];
    } else {
      NobodyHolds(tasks);
      e := if world[i].Asks? then Acquire(i) else GiveUp(i);
      assert Step(world, providers, tasks, e)[i] != tasks[i];
    }
  }

  /** The goroutines with their semaphore, moving in the order of `schedule`. */
  method RunGoroutines(world: seq<Fate>, providers: seq<Provider>, schedule: seq<Event>) returns (tasks: seq<Task>)
    requires WorldFor(world, providers)
    ensures tasks == Scheduled(world, providers, schedule)
  {
    tasks := seq(|world|, _ => Waiting);
    var free := Slots();
    NobodyHolds(tasks);
    for k := 0 to |schedule|
      invariant tasks == Scheduled(world, providers, schedule[..k]) && |tasks| == |world|
      invariant free == Slots() - Holders(tasks)
    {
      var e := schedule[k];
      assert schedule[..k + 1][..k] == schedule[..k];
      SlotsAreRespected(world, providers, schedule[..k]);
      if e.task >= |tasks| { continue; }
      HoldersUpdate(tasks, e.task, Step(world, providers, tasks, e)[e.task]);
      var t := tasks[e.task];
      match e {
        case Acquire(i) =>
          if t.Waiting? && world[i].Asks? && free > 0 {
            free := free - 1;
            tasks := tasks[i := Holding(0)];
          }
        case Ask(i) =>
          if t.Holding? && world[i].Asks? && t.asked < |providers| {
            tasks := tasks[i := Asked(providers, world[i].turns, t.asked)];
            if tasks[i].Done? { free := free + 1; }
          }
        case GiveUp(i) =>
          if t.Waiting? && world[i].GivesUp? { tasks := tasks[i := Done(Failed)]; }
      }
    }
    assert schedule[..|schedule|] == schedule;
  }

  // ----- merging -----

  /** Go's `unicode.IsSpace`. */
  predicate IsSpace(c: char) {
    var u := c as int;
    0x9 <= u <= 0xD || u == 0x20 || u == 0x85 || u == 0xA0 || u == 0x1680 || 0x2000 <= u <= 0x200A
    || u == 0x2028 || u == 0x2029 || u == 0x202F || u == 0x205F || u == 0x3000
  }

  function TrimLeft(s: string): (r: string)
    ensures r == [] || !IsSpace(r[0])
  {
    if s != [] && IsSpace(s[0]) then TrimLeft(s[1..]) else s
  }

  function TrimRight(s: string): (r: string)
    ensures r <= s && (r == [] || !IsSpace(r[|r| - 1]))
  {
    if s != [] && IsSpace(s[|s| - 1]) then TrimRight(s[..|s| - 1]) else s
  }

  function Trim(s: string): string {
    TrimRight(TrimLeft(s))
  }

  /** Identifiers are trimmed when answers are merged and again when expenses are looked up. */
  lemma TrimTwice(s: string)
    ensures Trim(Trim(s)) == Trim(s)
  {
    var left := TrimLeft(s);
    var r := TrimRight(left);
    if r != [] { assert r[0] == left[0]; }
  }

  /** The blanks, one by one. */
  lemma SpacesAre(c: char)
    ensures IsSpace(c) <==>
              c as int in {9, 10, 11, 12, 13, 32, 133, 160, 5760, 8192, 8193, 8194, 8195, 8196, 8197, 8198, 8199, 8200, 8201, 8202,
                           8232, 8233, 8239, 8287, 12288}
  {
  }

  /** Trimming takes off all blanks at both ends and nothing else. */
  lemma TrimmedOf(s: string) returns (before: string, after: string)
    ensures s == before + Trim(s) + after
    ensures (forall c | c in before :: IsSpace(c)) && (forall c | c in after :: IsSpace(c))
    ensures Trim(s) != "" ==> !IsSpace(Trim(s)[0]) && !IsSpace(Trim(s)[|Trim(s)| - 1])
  {
    hide IsSpace;
    before := LeftOf(s);
    after := RightOf(TrimLeft(s));
  }

  lemma {:induction false} LeftOf(s: string) returns (before: string)
    ensures s == before + TrimLeft(s) && forall c | c in before :: IsSpace(c)
  {
    hide IsSpace;
    before := "";
    if s != [] && IsSpace(s[0]) {
      var rest := LeftOf(s[1..]);
      before := [s[0]] + rest;
    }
  }

  lemma {:induction false} RightOf(s: string) returns (after: string)
    ensures s == TrimRight(s) + after && forall c | c in after :: IsSpace(c)
  {
    hide IsSpace;
    after := "";
    if s != [] && IsSpace(s[|s| - 1]) {
      var rest := RightOf(s[..|s| - 1]);
      after := rest + [s[|s| - 1]];
    }
  }

  /** The elements in the order of their first appearance, once each. */
  function FirstSeen(xs: seq<string>): seq<string> {
    if xs == [] then []
    else
      var seen := FirstSeen(xs[..|xs| - 1]);
      if xs[|xs| - 1] in seen then seen else seen + [xs[|xs| - 1]]
  }

  lemma {:induction false} FirstSeenLists(xs: seq<string>)
    ensures forall x :: x in FirstSeen(xs) <==> x in xs
    ensures forall i, j | 0 <= i < j < |FirstSeen(xs)| :: FirstSeen(xs)[i] != FirstSeen(xs)[j]
  {
    if xs != [] {
      FirstSeenLists(xs[..|xs| - 1]);
      assert xs == xs[..|xs| - 1] + [xs[|xs| - 1]];
    }
  }

  /** In that order: each element stands at the place `at` where it first appeared. */
  lemma {:induction false} FirstSeenInOrder(xs: seq<string>) returns (at: seq<nat>)
    ensures |at| == |FirstSeen(xs)| && forall k | 0 <= k < |at| :: at[k] < |xs| && xs[at[k]] == FirstSeen(xs)[k]
    ensures forall k | 0 <= k < |at| :: xs[at[k]] !in xs[..at[k]]
    ensures forall j, k | 0 <= j < k < |at| :: at[j] < at[k]
  {
    if xs == [] { return []; }
    var n := |xs| - 1;
    at := FirstSeenInOrder(xs[..n]);
    forall k | 0 <= k < |at| ensures xs[..n][..at[k]] == xs[..at[k]] {}
    FirstSeenLists(xs[..n]);
    if xs[n] !in FirstSeen(xs[..n]) { at := at + [n]; }
  }

  /** The identifiers an outcome names, without blanks. */
  function Named(ids: seq<string>): seq<string> {
    if ids == [] then []
    else Named(ids[..|ids| - 1]) + if Trim(ids[|ids| - 1]) == "" then [] else [Trim(ids[|ids| - 1])]
  }

  lemma {:induction false} NamedLists(ids: seq<string>, x: string)
    ensures x in Named(ids) <==> x != "" && exists id :: id in ids && Trim(id) == x
  {
    if ids != [] {
      NamedLists(ids[..|ids| - 1], x);
      assert ids == ids[..|ids| - 1] + [ids[|ids| - 1]];
    }
  }

  function AllNamed(results: seq<Outcome>): seq<string> {
    if results == [] then []
    else AllNamed(results[..|results| - 1]) + match results[|results| - 1] { case Failed => [] case Answered(reply, _) => Named(reply.ids) }
  }

  predicate Names(o: Outcome, x: string) {
    o.Answered? && x in Named(o.reply.ids)
  }

  lemma {:induction false} AllNamedLists(results: seq<Outcome>, x: string)
    ensures x in AllNamed(results) <==> exists k: nat :: k < |results| && Names(results[k], x)
  {
    hide Named;
    if results != [] {
      var n := |results| - 1;
      AllNamedLists(results[..n], x);
      assert x in AllNamed(results) <==> x in AllNamed(results[..n]) || Names(results[n], x);
      assert forall k: nat | k < n :: results[..n][k] == results[k];
    }
  }

  /** What the answers say about themselves, in chunk order, without blanks. */
  datatype Part = ProviderName | ModelName | Summary

  /** `trimExpenseAIText` with its limit of 300 characters for summaries. */
  function ShortSummary(s: string): string {
    var t := Trim(s);
    if |t| <= 300 then t else Trim(t[..300])
  }

  function PartOf(part: Part, o: Outcome): string {
    if o.Failed? then ""
    else match part
      case ProviderName => o.provider.name
      case ModelName => o.provider.model
      case Summary => ShortSummary(o.reply.summary)
  }

  function Parts(part: Part, results: seq<Outcome>): seq<string> {
    if results == [] then []
    else
      var last := PartOf(part, results[|results| - 1]);
      Parts(part, results[..|results| - 1]) + if last == "" then [] else [last]
  }

  /** `parts` belong to the results at the increasing positions `at`: those answered with a text there
      that is not blank. */
  ghost predicate PartsAt(part: Part, parts: seq<string>, at: seq<nat>, results: seq<Outcome>) {
    && |at| == |parts|
    && (forall k | 0 <= k < |at| :: at[k] < |results| && TextIs(part, results[at[k]], parts[k]))
    && (forall j, k | 0 <= j < k < |at| :: at[j] < at[k])
    && (forall i: nat | i < |results| :: i !in at ==> !exists x :: TextIs(part, results[i], x))
  }

  predicate TextIs(part: Part, o: Outcome, x: string) {
    && o.Answered? && x != ""
    && x == match part case ProviderName => o.provider.name case ModelName => o.provider.model case Summary => ShortSummary(o.reply.summary)
  }

  lemma PartsAtGrows(part: Part, parts: seq<string>, at: seq<nat>, results: seq<Outcome>, o: Outcome, x: string)
    requires PartsAt(part, parts, at, results)
    ensures TextIs(part, o, x) ==> PartsAt(part, parts + [x], at + [|results|], results + [o])
    ensures (forall y :: !TextIs(part, o, y)) ==> PartsAt(part, parts, at, results + [o])
  {
    hide TextIs;
    assert forall i: nat :: i in at + [|results|] <==> i in at || i == |results|;
  }

  /** Names and summaries appear in chunk order, once for each answered chunk that has one. */
  lemma {:induction false} PartsListed(part: Part, results: seq<Outcome>) returns (at: seq<nat>)
    ensures PartsAt(part, Parts(part, results), at, results)
  {
    if results == [] { return []; }
    var n := |results| - 1;
    var x := PartOf(part, results[n]);
    assert results == results[..n] + [results[n]];
    assert (forall y :: TextIs(part, results[n], y) <==> y == x && x != "") by { hide ShortSummary; }
    at := PartsListed(part, results[..n]);
    hide PartsAt, TextIs, PartOf;
    PartsAtGrows(part, Parts(part, results[..n]), at, results[..n], results[n], x);
    if x != "" { at := at + [n]; }
  }

  /** A summary is trimmed, and cut to 300 characters if it is longer. */
  lemma SummaryIsShort(s: string)
    ensures |ShortSummary(s)| <= 300
    ensures |Trim(s)| <= 300 ==> ShortSummary(s) == Trim(s)
    ensures |Trim(s)| > 300 ==> ShortSummary(s) == Trim(Trim(s)[..300])
  {
    if |Trim(s)| > 300 {
      var before, after := TrimmedOf(Trim(s)[..300]);
    }
  }

  function Failures(results: seq<Outcome>): nat {
    if results == [] then 0
    else Failures(results[..|results| - 1]) + if results[|results| - 1].Failed? then 1 else 0
  }

  /** How many expenses are in chunks that were answered. */
  function Analyzed(chunks: seq<seq<Expense>>, results: seq<Outcome>): nat
    requires |chunks| == |results|
  {
    if results == [] then 0
    else
      var n := |results| - 1;
      Analyzed(chunks[..n], results[..n]) + if results[n].Answered? then |chunks[n]| else 0
  }

  /** The merged answer; the texts are lists before they are joined. */
  datatype Merged = Merged(ids: seq<string>, providers: seq<string>, models: seq<string>, summaries: seq<string>,
                           analyzed: nat, failed: nat)

  function MergedFrom(chunks: seq<seq<Expense>>, results: seq<Outcome>): Merged
    requires |chunks| == |results|
  {
    Merged(FirstSeen(AllNamed(results)), FirstSeen(Parts(ProviderName, results)), FirstSeen(Parts(ModelName, results)),
           Parts(Summary, results), Analyzed(chunks, results), Failures(results))
  }

  lemma FirstSeenStep(before: seq<string>, ids: seq<string>, i: nat)
    requires i < |ids|
    ensures var was, id := FirstSeen(before + Named(ids[..i])), Trim(ids[i]);
            FirstSeen(before + Named(ids[..i + 1])) == if id == "" || id in was then was else was + [id]
  {
    assert ids[..i + 1][..i] == ids[..i];
    var was := before + Named(ids[..i]);
    if Trim(ids[i]) == "" {
      assert before + Named(ids[..i + 1]) == was;
    } else {
      assert before + Named(ids[..i + 1]) == was + [Trim(ids[i])];
      assert (was + [Trim(ids[i])])[..|was|] == was;
    }
  }

  /** Trims, drops blanks and adds what was not seen before. */
  method AddIds(selected: seq<string>, seen: set<string>, ids: seq<string>, ghost before: seq<string>)
    returns (selected': seq<string>, seen': set<string>)
    requires selected == FirstSeen(before) && (forall x :: x in seen <==> x in selected)
    ensures selected' == FirstSeen(before + Named(ids)) && (forall x :: x in seen' <==> x in selected')
  {
    assert before + Named(ids[..0]) == before;
    hide FirstSeen, Named, Trim;
    selected', seen' := selected, seen;
    for i := 0 to |ids|
      invariant selected' == FirstSeen(before + Named(ids[..i]))
      invariant forall x :: x in seen' <==> x in selected'
    {
      var id := Trim(ids[i]);
      FirstSeenStep(before, ids, i);
      if id == "" { continue; }
      if id !in seen' {
        seen' := seen' + {id};
        selected' := selected' + [id];
      }
    }
    assert ids[..|ids|] == ids;
  }

  lemma MergeStep(chunks: seq<seq<Expense>>, results: seq<Outcome>, i: nat)
    requires |chunks| == |results| && i < |results|
    ensures var r := results[i];
            && AllNamed(results[..i + 1]) == AllNamed(results[..i]) + (if r.Answered? then Named(r.reply.ids) else [])
            && Failures(results[..i + 1]) == Failures(results[..i]) + (if r.Failed? then 1 else 0)
            && Analyzed(chunks[..i + 1], results[..i + 1])
               == Analyzed(chunks[..i], results[..i]) + (if r.Answered? then |chunks[i]| else 0)
  {
    assert results[..i + 1][..i] == results[..i] && chunks[..i + 1][..i] == chunks[..i];
  }

  lemma PartStep(part: Part, results: seq<Outcome>, i: nat)
    requires i < |results|
    ensures var was, x := Parts(part, results[..i]), PartOf(part, results[i]);
            && Parts(part, results[..i + 1]) == (if x == "" then was else was + [x])
            && FirstSeen(Parts(part, results[..i + 1]))
               == (if x == "" || x in FirstSeen(was) then FirstSeen(was) else FirstSeen(was) + [x])
  {
    assert results[..i + 1][..i] == results[..i];
    var was, x := Parts(part, results[..i]), PartOf(part, results[i]);
    assert was + [] == was && (was + [x])[..|was|] == was;
  }

  lemma NothingMerged(chunks: seq<seq<Expense>>, results: seq<Outcome>)
    requires |chunks| == |results|
    ensures MergedFrom(chunks[..0], results[..0]) == Merged([], [], [], [], 0, 0) && AllNamed(results[..0]) == []
  {
  }

  /** The loop of `runExpenseAIChunks` over the results. */
  method Merge(chunks: seq<seq<Expense>>, results: seq<Outcome>) returns (m: Merged)
    requires |chunks| == |results|
    ensures m == MergedFrom(chunks, results)
  {
    hide AllNamed, Parts, Failures, Analyzed, FirstSeen, PartOf;
    NothingMerged(chunks, results);
    var ids: seq<string>, seen: set<string> := [], {};
    var names: seq<string>, models: seq<string>, summaries: seq<string> := [], [], [];
    var analyzed: nat, failed: nat := 0, 0;
    for i := 0 to |results|
      invariant Merged(ids, names, models, summaries, analyzed, failed) == MergedFrom(chunks[..i], results[..i])
      invariant forall x :: x in seen <==> x in ids
    {
      MergeStep(chunks, results, i);
      PartStep(ProviderName, results, i);
      PartStep(ModelName, results, i);
      PartStep(Summary, results, i);
      FailedHasNoParts(results[i]);
      if results[i].Failed? {
        failed := failed + 1;
        assert AllNamed(results[..i]) + [] == AllNamed(results[..i]);
        continue;
      }
      analyzed := analyzed + |chunks[i]|;
      var name, model, summary := results[i].provider.name, results[i].provider.model, ShortSummary(results[i].reply.summary);
      if name != "" && name !in names { names := names + [name]; }
      if model != "" && model !in models { models := models + [model]; }
      ids, seen := AddIds(ids, seen, results[i].reply.ids, AllNamed(results[..i]));
      if summary != "" { summaries := summaries + [summary]; }
    }
    assert results[..|results|] == results && chunks[..|chunks|] == chunks;
    m := Merged(ids, names, models, summaries, analyzed, failed);
  }

  lemma FailedHasNoParts(o: Outcome)
    ensures forall part :: PartOf(part, o) ==
              if o.Failed? then "" else match part
                case ProviderName => o.provider.name
                case ModelName => o.provider.model
                case Summary => ShortSummary(o.reply.summary)
  {
  }

  function FailedAt(results: seq<Outcome>): set<nat> {
    set i: nat | i < |results| && results[i].Failed?
  }

  /** The expenses of answered chunks, by chunk and place. */
  function HeldAt(chunks: seq<seq<Expense>>, results: seq<Outcome>): set<(nat, nat)>
    requires |chunks| == |results|
  {
    set i: nat, j: nat | i < |results| && results[i].Answered? && j < |chunks[i]| :: (i, j)
  }

  lemma FailedGrows(results: seq<Outcome>, o: Outcome)
    ensures FailedAt(results + [o]) == if o.Failed? then FailedAt(results) + {|results|} else FailedAt(results)
  {
  }

  lemma HeldGrows(chunks: seq<seq<Expense>>, results: seq<Outcome>, chunk: seq<Expense>, o: Outcome)
    requires |chunks| == |results|
    ensures |HeldAt(chunks + [chunk], results + [o])| == |HeldAt(chunks, results)| + if o.Answered? then |chunk| else 0
  {
    var n := |results|;
    var before, after := HeldAt(chunks, results), HeldAt(chunks + [chunk], results + [o]);
    forall p ensures p in after <==> p in before || (o.Answered? && p in Pairs(n, |chunk|)) { HeldIn(chunks, results, chunk, o, p); }
    PairsCount(n, |chunk|);
    assert before !! Pairs(n, |chunk|);
    hide HeldAt, Pairs;
    assert after == if o.Answered? then before + Pairs(n, |chunk|) else before;
  }

  lemma HeldIn(chunks: seq<seq<Expense>>, results: seq<Outcome>, chunk: seq<Expense>, o: Outcome, p: (nat, nat))
    requires |chunks| == |results|
    ensures p in HeldAt(chunks + [chunk], results + [o]) <==> p in HeldAt(chunks, results) || (o.Answered? && p in Pairs(|results|, |chunk|))
  {
    var (i, j) := p;
    assert p in HeldAt(chunks, results) <==> i < |results| && results[i].Answered? && j < |chunks[i]|;
    assert p in HeldAt(chunks + [chunk], results + [o]) <==>
      i <= |results| && (results + [o])[i].Answered? && j < |(chunks + [chunk])[i]|;
  }

  function Pairs(n: nat, size: nat): set<(nat, nat)> {
    set j: nat | j < size :: (n, j)
  }

  /** The counts in other words: how many results failed, and how many expenses the others hold. */
  lemma {:induction false} CountsAre(chunks: seq<seq<Expense>>, results: seq<Outcome>)
    requires |chunks| == |results|
    ensures Failures(results) == |FailedAt(results)| && Analyzed(chunks, results) == |HeldAt(chunks, results)|
  {
    if results == [] {
      assert FailedAt(results) == {} && HeldAt(chunks, results) == {};
    } else {
      var n := |results| - 1;
      CountsAre(chunks[..n], results[..n]);
      assert results == results[..n] + [results[n]] && chunks == chunks[..n] + [chunks[n]];
      FailedGrows(results[..n], results[n]);
      assert n !in FailedAt(results[..n]);
      hide FailedAt, HeldAt;
      HeldGrows(chunks[..n], results[..n], chunks[n], results[n]);
    }
  }

  lemma {:induction false} PairsCount(n: nat, size: nat)
    ensures |Pairs(n, size)| == size
  {
    if size == 0 {
      assert Pairs(n, size) == {};
    } else {
      PairsCount(n, size - 1);
      assert Pairs(n, size) == Pairs(n, size - 1) + {(n, size - 1)};
    }
  }

  function Total(chunks: seq<seq<Expense>>): nat {
    if chunks == [] then 0 else |chunks[0]| + Total(chunks[1..])
  }

  lemma {:induction false} TotalIsLength(chunks: seq<seq<Expense>>)
    ensures |Concat(chunks)| == Total(chunks)
  {
    if chunks != [] { TotalIsLength(chunks[1..]); }
  }

  lemma {:induction false} TotalLast(chunks: seq<seq<Expense>>)
    requires chunks != []
    ensures Total(chunks) == Total(chunks[..|chunks| - 1]) + |chunks[|chunks| - 1]|
  {
    if |chunks| > 1 {
      TotalLast(chunks[1..]);
      assert chunks[1..][..|chunks| - 2] == chunks[..|chunks| - 1][1..];
    }
  }

  lemma {:induction false} AnalyzedVersusFailures(chunks: seq<seq<Expense>>, results: seq<Outcome>)
    requires |chunks| == |results| && forall c | c in chunks :: c != []
    ensures Analyzed(chunks, results) + Failures(results) <= Total(chunks)
    ensures Failures(results) == 0 ==> Analyzed(chunks, results) == Total(chunks)
  {
    var n := |results| - 1;
    if results != [] {
      assert chunks[n] in chunks && forall c | c in chunks[..n] :: c in chunks;
      TotalLast(chunks);
      AnalyzedVersusFailures(chunks[..n], results[..n]);
    }
  }

  // ----- looking the expenses up -----

  function Chosen(items: seq<Expense>, wanted: set<string>): seq<Expense> {
    if items == [] then []
    else Chosen(items[..|items| - 1], wanted) + if items[|items| - 1].id in wanted then [items[|items| - 1]] else []
  }

  /** `selected` are the expenses at the increasing positions `at`. */
  ghost predicate InOrder(selected: seq<Expense>, at: seq<nat>, items: seq<Expense>) {
    && |at| == |selected|
    && (forall k | 0 <= k < |at| :: at[k] < |items| && selected[k] == items[at[k]])
    && (forall j, k | 0 <= j < k < |at| :: at[j] < at[k])
  }

  ghost predicate Covers(at: seq<nat>, items: seq<Expense>, wanted: set<string>) {
    forall i: nat | i < |items| :: i in at <==> items[i].id in wanted
  }

  lemma InOrderGrows(selected: seq<Expense>, at: seq<nat>, items: seq<Expense>)
    requires items != [] && InOrder(selected, at, items[..|items| - 1])
    ensures InOrder(selected, at, items)
    ensures InOrder(selected + [items[|items| - 1]], at + [|items| - 1], items)
  {
  }

  lemma CoversGrows(selected: seq<Expense>, at: seq<nat>, items: seq<Expense>, wanted: set<string>)
    requires items != [] && InOrder(selected, at, items[..|items| - 1]) && Covers(at, items[..|items| - 1], wanted)
    ensures Covers(if items[|items| - 1].id in wanted then at + [|items| - 1] else at, items, wanted)
  {
    var n := |items| - 1;
    assert forall i: nat :: i in at + [n] <==> i in at || i == n;
    assert forall i: nat | i < n :: items[..n][i] == items[i];
  }

  /** Exactly the wanted expenses, each at its place in the original order. */
  lemma {:induction false} ChosenInOrder(items: seq<Expense>, wanted: set<string>) returns (at: seq<nat>)
    ensures InOrder(Chosen(items, wanted), at, items) && Covers(at, items, wanted)
  {
    hide InOrder, Covers, Chosen;
    if items == [] {
      at := [];
      NothingChosen(wanted);
    } else {
      ChosenStep(items, wanted);
      var n := |items| - 1;
      var was := ChosenInOrder(items[..n], wanted);
      at := if items[n].id in wanted then was + [n] else was;
      InOrderGrows(Chosen(items[..n], wanted), was, items);
      CoversGrows(Chosen(items[..n], wanted), was, items, wanted);
    }
  }

  lemma ChosenStep(items: seq<Expense>, wanted: set<string>)
    requires items != []
    ensures var n := |items| - 1;
            Chosen(items, wanted) == if items[n].id in wanted then Chosen(items[..n], wanted) + [items[n]] else Chosen(items[..n], wanted)
  {
    assert Chosen(items[..|items| - 1], wanted) + [] == Chosen(items[..|items| - 1], wanted);
  }

  lemma NothingChosen(wanted: set<string>)
    ensures InOrder(Chosen([], wanted), [], []) && Covers([], [], wanted)
  {
  }

  function Wanted(ids: seq<string>): set<string> {
    set x | x in Named(ids)
  }

  method Lookup(items: seq<Expense>, wanted: set<string>) returns (selected: seq<Expense>)
    ensures selected == Chosen(items, wanted)
  {
    selected := [];
    for i := 0 to |items|
      invariant selected == Chosen(items[..i], wanted)
    {
      assert items[..i + 1][..i] == items[..i];
      if items[i].id in wanted { selected := selected + [items[i]]; }
    }
    assert items[..|items|] == items;
  }

  /** `validExpenseSelection`. */
  method ValidSelection(items: seq<Expense>, ids: seq<string>) returns (selected: seq<Expense>)
    ensures selected == Chosen(items, Wanted(ids))
  {
    var wanted: set<string> := {};
    for i := 0 to |ids|
      invariant wanted == Wanted(ids[..i])
    {
      assert ids[..i + 1][..i] == ids[..i];
      if Trim(ids[i]) != "" { wanted := wanted + {Trim(ids[i])}; }
    }
    assert ids[..|ids|] == ids;
    selected := Lookup(items, wanted);
  }

  /** The identifiers in the selections, except the empty one. */
  function Identified(selections: seq<seq<Expense>>): set<string> {
    set k, x | 0 <= k < |selections| && x in selections[k] && x.id != "" :: x.id
  }

  /** `mergeExpenseSelections`. */
  method MergeSelections(items: seq<Expense>, selections: seq<seq<Expense>>) returns (merged: seq<Expense>)
    ensures merged == Chosen(items, Identified(selections))
  {
    var ids: set<string> := {};
    for i := 0 to |selections|
      invariant forall id :: id in ids <==> id != "" && exists k: nat, x :: k < i && x in selections[k] && x.id == id
    {
      ghost var before := ids;
      for j := 0 to |selections[i]|
        invariant forall id :: id in ids <==> id in before || (id != "" && exists k: nat :: k < j && selections[i][k].id == id)
      {
        if selections[i][j].id != "" { ids := ids + {selections[i][j].id}; }
      }
    }
    assert ids == Identified(selections);
    merged := Lookup(items, ids);
  }

  // ----- the whole search -----

  /** The chunk's answer names the identifier, perhaps with blanks around it. */
  predicate Mentions(o: Outcome, x: string) {
    x != "" && o.Answered? && exists id :: id in o.reply.ids && Trim(id) == x
  }

  /** Wanted in the end is what some answered chunk mentions. */
  lemma {:induction false} SelectionIsUnion(results: seq<Outcome>, x: string)
    ensures x in Wanted(FirstSeen(AllNamed(results))) <==> exists k: nat :: k < |results| && Mentions(results[k], x)
  {
    var ids := FirstSeen(AllNamed(results));
    hide Named, AllNamed, FirstSeen, Trim;
    NamedLists(ids, x);
    FirstSeenLists(AllNamed(results));
    AllNamedLists(results, x);
    forall k: nat | k < |results| && results[k].Answered? ensures Names(results[k], x) <==> Mentions(results[k], x) {
      NamedLists(results[k].reply.ids, x);
    }
    forall id | id in ids ensures Trim(id) == id { NamedAreTrimmed(results, id); }
  }

  lemma NamedAreTrimmed(results: seq<Outcome>, x: string)
    requires x in FirstSeen(AllNamed(results))
    ensures Trim(x) == x
  {
    FirstSeenLists(AllNamed(results));
    AllNamedLists(results, x);
    var k: nat :| k < |results| && Names(results[k], x);
    NamedLists(results[k].reply.ids, x);
    var id :| id in results[k].reply.ids && Trim(id) == x;
    TrimTwice(id);
  }

  function Outcomes(providers: seq<Provider>, world: seq<Fate>): seq<Outcome>
    requires WorldFor(world, providers)
  {
    seq(|world|, i requires 0 <= i < |world| => OutcomeOf(providers, world[i]))
  }

  ghost predicate Finishes(world: seq<Fate>, providers: seq<Provider>, schedule: seq<Event>)
    requires WorldFor(world, providers)
  {
    forall t | t in Scheduled(world, providers, schedule) :: t.Done?
  }

  /** `runExpenseAIChunks`: whatever the schedule, the merged answer is that of the chunks' own
      outcomes, and there is no error exactly when every expense was analyzed. */
  method RunChunks(items: seq<Expense>, providers: seq<Provider>, world: seq<Fate>, schedule: seq<Event>)
      returns (m: Merged, error: bool)
    requires |world| == |Grouped([], items)|
    requires providers != [] ==> WorldFor(world, providers) && Finishes(world, providers, schedule)
    ensures error <==> m.analyzed != |items|
    ensures m == if providers == [] then Merged([], [], [], [], 0, 0) else MergedFrom(Grouped([], items), Outcomes(providers, world))
    ensures providers != [] ==> (error <==> m.failed > 0)
  {
    m := Merged([], [], [], [], 0, 0);
    var chunks := Split(items);
    SplitIsOptimal(items, []);
    if |items| == 0 {
      ghost var none: seq<Outcome> := [];
      NothingMerged(chunks, none);
      assert chunks[..0] == chunks && none[..0] == none;
      return m, false;
    }
    if |providers| == 0 { return m, true; }
    var tasks := RunGoroutines(world, providers, schedule);
    var results: seq<Outcome> := [];
    for i := 0 to |tasks|
      invariant results == Outcomes(providers, world)[..i]
    {
      ScheduleDoesNotMatter(world, providers, schedule, i);
      assert tasks[i] in tasks;
      results := results + [tasks[i].outcome];
    }
    assert results == Outcomes(providers, world);
    m := Merge(chunks, results);
    TotalIsLength(chunks);
    AnalyzedVersusFailures(chunks, results);
    error := m.failed > 0;
  }

  /** The part of `ExpenseAISearch` that asks the providers: for every schedule it shows exactly the
      expenses that an answered chunk mentions, joined after an error by the local matches. */
  method Search(items: seq<Expense>, local: seq<Expense>, providers: seq<Provider>, world: seq<Fate>, schedule: seq<Event>)
      returns (selected: seq<Expense>, analyzed: nat, complete: bool, ghost at: seq<nat>)
    requires |world| == |Grouped([], items)| && WorldFor(world, providers) && Finishes(world, providers, schedule)
    ensures analyzed == Analyzed(Grouped([], items), Outcomes(providers, world)) && (complete <==> analyzed == |items|)
    ensures InOrder(selected, at, items)
    ensures forall i: nat | i < |items| ::
              i in at <==>
                || (exists k: nat :: k < |world| && Mentions(Outcomes(providers, world)[k], items[i].id))
                || (!complete && items[i].id != "" && exists y :: y in local && y.id == items[i].id)
  {
    assert forall x: string :: x in Identified([local]) <==> x != "" && exists y :: y in [local][0] && y.id == x;
    var m, error := RunChunks(items, providers, world, schedule);
    analyzed, complete := m.analyzed, !error;
    selected := ValidSelection(items, m.ids);
    ghost var wanted := Wanted(m.ids);
    if error {
      var both := [selected, local];
      NamedLists(m.ids, "");
      ShownIdentified(items, selected, local, wanted);
      selected := MergeSelections(items, both);
      wanted := Identified(both);
    }
    at := ChosenInOrder(items, wanted);
    forall i: nat | i < |items|
      ensures items[i].id in wanted <==>
              || (exists k: nat :: k < |world| && Mentions(Outcomes(providers, world)[k], items[i].id))
              || (!complete && items[i].id in Identified([local]))
    {
      SelectionIsUnion(Outcomes(providers, world), items[i].id);
    }
  }

  /** The identifiers that two selections from the same list stand for. */
  lemma ShownIdentified(items: seq<Expense>, selected: seq<Expense>, local: seq<Expense>, wanted: set<string>)
    requires selected == Chosen(items, wanted) && "" !in wanted
    ensures forall i: nat | i < |items| ::
              items[i].id in Identified([selected, local]) <==> items[i].id in wanted || items[i].id in Identified([local])
  {
    var at := ChosenInOrder(items, wanted);
    var both := [selected, local];
    forall i: nat | i < |items|
      ensures items[i].id in Identified(both) <==> items[i].id in wanted || items[i].id in Identified([local])
    {
      var x := items[i].id;
      if x in wanted {
        var k :| 0 <= k < |at| && at[k] == i;
        assert selected[k] in both[0];
      }
      if x in Identified([local]) {
        var y: Expense :| y in [local][0] && y.id == x && x != "";
        assert y in both[1];
      }
      if x in Identified(both) {
        var k: int, y: Expense :| 0 <= k < |both| && y in both[k] && y.id == x && x != "";
        if k == 0 {
          var j :| 0 <= j < |selected| && selected[j] == y;
          assert at[j] in at;
        } else {
          assert y in [local][0];
        }
      }
    }
  }
}
