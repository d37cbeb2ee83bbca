/** Inviting a new phone number commits three times: the check, closing earlier invitations of the
    number, and the insertion.  What happens to the limit when other requests run in between. */
module SplitInvites {
  import opened Options
  import opened Calendar
  import opened PlanCapacity
  import opened PlanCapacityLaws
  import P = Payments

  /** An invitation on its way: its check has passed, its insertion is still to come. */
  datatype Sending = Sending(id: InviteId, phone: Phone, role: Role)

  // ----- one insertion -----

  /** An insertion takes one place wherever it runs, so it keeps the bound of its project exactly when
      a place is free at that moment. */
  lemma InsertionIsExact(s: State, project: ProjectId, x: Sending)
    requires project in s.projects && x.id !in s.invites && Assignable(x.role)
    ensures var t := Step(s, InsertInvite(x.id, project, x.phone, x.role));
            && |Places(t, project)| == |Places(s, project)| + 1
            && t == s.(invites := t.invites)
            && (Fits(t, project) <==> |NonOwners(s.projects[project].members)| + |Places(s, project)| < Limit(s, project))
  {
    var t := Step(s, InsertInvite(x.id, project, x.phone, x.role));
    assert Places(t, project) == Places(s, project) + {x.id};
  }

  /** The pending invitations of a project. */
  function Places(s: State, project: ProjectId): set<InviteId> {
    Pending(s.invites, project, s.pay.clock)
  }

  function Limit(s: State, project: ProjectId): nat
    requires project in s.projects
  {
    MostMembers(HeldBy(s.held, s.projects[project].owner))
  }

  /** Members and pending invitations are within the highest limit of the plans held. */
  predicate Fits(s: State, project: ProjectId)
    requires project in s.projects
  {
    |NonOwners(s.projects[project].members)| + |Places(s, project)| <= Limit(s, project)
  }

  // ----- closing and inserting -----

  predicate HasPending(s: State, project: ProjectId, phone: Phone) {
    exists i | i in s.invites :: s.invites[i].project == project && s.invites[i].phone == phone && Live(s.invites[i], s.pay.clock)
  }

  function SendEvents(project: ProjectId, list: seq<Sending>): seq<Event> {
    if list == [] then []
    else
      var x := list[|list| - 1];
      SendEvents(project, list[..|list| - 1]) + [RevokeInvites(project, x.phone), InsertInvite(x.id, project, x.phone, x.role)]
  }

  function CheckEvents(project: ProjectId, list: seq<Sending>): seq<Event> {
    if list == [] then [] else CheckEvents(project, list[..|list| - 1]) + [CheckInvite(project, list[|list| - 1].phone)]
  }

  /** The phone numbers that had no pending invitation before. */
  function NewPhones(s: State, project: ProjectId, list: seq<Sending>): set<Phone> {
    set x | x in list && !HasPending(s, project, x.phone) :: x.phone
  }

  ghost predicate Sendable(s: State, project: ProjectId, list: seq<Sending>) {
    && project in s.projects && OnePerPhone(s.invites, s.pay.clock)
    && (forall x | x in list :: x.id !in s.invites && Assignable(x.role))
    && (forall i, j | 0 <= i < j < |list| :: list[i].id != list[j].id)
  }

  lemma OthersCount(s: State, project: ProjectId, phone: Phone)
    requires OnePerPhone(s.invites, s.pay.clock)
    ensures |PendingOthers(s.invites, project, phone, s.pay.clock)| + (if HasPending(s, project, phone) then 1 else 0) == |Places(s, project)|
  {
    var others, all := PendingOthers(s.invites, project, phone, s.pay.clock), Places(s, project);
    if HasPending(s, project, phone) {
      var i :| i in s.invites && s.invites[i].project == project && s.invites[i].phone == phone && Live(s.invites[i], s.pay.clock);
      forall j | j in all && j != i ensures j in others {
        assert SameSeat(s.invites[j], s.invites[i]) ==> j == i;
      }
      assert all == others + {i};
    } else {
      assert all == others;
    }
  }

  function Row(s: State, project: ProjectId, x: Sending): Invite {
    Invite(project, x.phone, x.role, s.pay.clock + Days(7), false, false)
  }

  lemma SendState(s: State, project: ProjectId, x: Sending)
    requires project in s.projects && x.id !in s.invites && Assignable(x.role)
    ensures Step(Step(s, RevokeInvites(project, x.phone)), InsertInvite(x.id, project, x.phone, x.role))
            == s.(invites := Revoked(s.invites, project, x.phone)[x.id := Row(s, project, x)])
  {
  }

  /** Closing and inserting takes a place only for a number that had none. */
  lemma SendCounts(s: State, project: ProjectId, x: Sending)
    requires Sendable(s, project, [x])
    ensures var t := Step(Step(s, RevokeInvites(project, x.phone)), InsertInvite(x.id, project, x.phone, x.role));
            && t == s.(invites := t.invites) && t.invites.Keys == s.invites.Keys + {x.id}
            && OnePerPhone(t.invites, t.pay.clock)
            && |Places(t, project)| == |Places(s, project)| + (if HasPending(s, project, x.phone) then 0 else 1)
            && forall y :: HasPending(t, project, y) <==> HasPending(s, project, y) || y == x.phone
  {
    hide Step, HasPending, OnePerPhone, PendingOthers, Pending;
    assert x in [x];
    var now, row := s.pay.clock, Row(s, project, x);
    var closed := Revoked(s.invites, project, x.phone);
    SendState(s, project, x);
    RevokedSeats(s.invites, project, x.phone, now);
    InsertedSeat(closed, x.id, row, now);
    RevokedPending(s.invites, project, x.phone, now, project);
    RowIsPending(closed, x.id, row, now);
    OthersCount(s, project, x.phone);
    PendingAfter(s, project, x, s.(invites := closed[x.id := row]));
  }

  lemma RowIsPending(invites: Invites, id: InviteId, row: Invite, now: Instant)
    requires id !in invites && Live(row, now)
    ensures Pending(invites[id := row], row.project, now) == Pending(invites, row.project, now) + {id}
    ensures id !in Pending(invites, row.project, now)
  {
  }

  lemma PendingAfter(s: State, project: ProjectId, x: Sending, t: State)
    requires x.id !in s.invites && t.pay.clock == s.pay.clock
    requires t.invites == Revoked(s.invites, project, x.phone)[x.id := Row(s, project, x)]
    ensures forall y :: HasPending(t, project, y) <==> HasPending(s, project, y) || y == x.phone
  {
    forall y ensures HasPending(t, project, y) <==> HasPending(s, project, y) || y == x.phone {
      if y == x.phone {
        assert Live(t.invites[x.id], t.pay.clock);
      } else {
        assert forall i | i in s.invites && s.invites[i].phone == y :: t.invites[i] == s.invites[i];
      }
    }
  }

  lemma RunTwo(s: State, events: seq<Event>, a: Event, b: Event)
    ensures Run(s, events + [a, b]) == Step(Step(Run(s, events), a), b)
  {
    hide Step;
    assert (events + [a, b])[..|events| + 1] == events + [a] && (events + [a])[..|events|] == events;
  }

  /** Sending any number of invitations takes one place for each distinct new phone number. */
  lemma {:induction false} SendsCount(s: State, project: ProjectId, list: seq<Sending>)
    requires Sendable(s, project, list)
    ensures var t := Run(s, SendEvents(project, list));
            && t == s.(invites := t.invites) && t.invites.Keys == s.invites.Keys + (set x | x in list :: x.id)
            && OnePerPhone(t.invites, t.pay.clock)
            && |Places(t, project)| == |Places(s, project)| + |NewPhones(s, project, list)|
            && forall y :: HasPending(t, project, y) <==> HasPending(s, project, y) || exists x :: x in list && x.phone == y
  {
    hide Step, HasPending, Places, OnePerPhone, NewPhones;
    if list == [] {
      NothingNew(s, project);
    } else {
      var n := |list| - 1;
      var x, before := list[n], Run(s, SendEvents(project, list[..n]));
      assert forall y :: y in list <==> y in list[..n] || y == x;
      SendsCount(s, project, list[..n]);
      RunTwo(s, SendEvents(project, list[..n]), RevokeInvites(project, x.phone), InsertInvite(x.id, project, x.phone, x.role));
      SendCounts(before, project, x);
      NewPhonesGrow(s, before, project, list);
    }
  }

  lemma NothingNew(s: State, project: ProjectId)
    ensures NewPhones(s, project, []) == {}
  {
  }

  lemma NewPhonesGrow(s: State, before: State, project: ProjectId, list: seq<Sending>)
    requires list != []
    requires forall y :: HasPending(before, project, y) <==> HasPending(s, project, y) || exists x :: x in list[..|list| - 1] && x.phone == y
    ensures |NewPhones(s, project, list)| == |NewPhones(s, project, list[..|list| - 1])|
            + if HasPending(before, project, list[|list| - 1].phone) then 0 else 1
  {
    hide HasPending;
    var n := |list| - 1;
    var x, was := list[n], NewPhones(s, project, list[..n]);
    assert forall y :: y in list <==> y in list[..n] || y == x;
    assert NewPhones(s, project, list) == if HasPending(before, project, x.phone) then was else was + {x.phone};
  }

  // ----- the checks -----

  /** A check changes nothing that a second check looks at. */
  lemma CheckedAgain(s: State, project: ProjectId, phone: Phone)
    requires MayAdd(s, project, phone)
    ensures var owner := s.projects[project].owner;
            && MayAdd(Ensure(s, owner), project, phone)
            && HeldBy(Ensure(Ensure(s, owner), owner).held, owner) == HeldBy(Ensure(s, owner).held, owner)
  {
    var owner := s.projects[project].owner;
    EnsureKeepsRest(s, owner);
    EnsuredTwice(s.pay, owner);
    SameHeld(s.held, P.EnsureSubscription(s.pay, owner).subs, owner);
    hide P.EnsureSubscription, P.Ensured, NonOwners, PendingOthers, Remembered;
  }

  lemma EnsuredTwice(s: P.State, user: UserId)
    ensures P.Ensured(P.EnsureSubscription(s, user), user) == P.Ensured(s, user)
    ensures P.EnsureSubscription(P.EnsureSubscription(s, user), user) == P.EnsureSubscription(s, user)
  {
  }

  lemma SameHeld(held: Held, subs: P.Subscriptions, user: UserId)
    ensures HeldBy(Remembered(Remembered(held, subs), subs), user) == HeldBy(Remembered(held, subs), user)
  {
  }

  /** What the checks leave: the refreshed subscription of the owner, and all else as it was. */
  ghost predicate OnlyChecked(s: State, t: State, project: ProjectId)
    requires project in s.projects
  {
    var owner := s.projects[project].owner;
    && t.projects == s.projects && t.invites == s.invites && t.pay.clock == s.pay.clock
    && HeldBy(t.held, owner) == HeldBy(Ensure(s, owner).held, owner)
    && forall phone :: MayAdd(s, project, phone) ==> MayAdd(t, project, phone)
  }

  lemma FirstCheck(s: State, project: ProjectId, phone: Phone)
    requires project in s.projects && MayAdd(s, project, phone)
    ensures OnlyChecked(s, Step(s, CheckInvite(project, phone)), project)
  {
    hide MayAdd, Ensure;
    EnsureKeepsRest(s, s.projects[project].owner);
    forall other | MayAdd(s, project, other) ensures MayAdd(Ensure(s, s.projects[project].owner), project, other) {
      CheckedAgain(s, project, other);
    }
  }

  /** Refreshing a refreshed subscription only notes its plan again. */
  lemma EnsureAgain(s: State, t: State, owner: UserId)
    requires t.pay == Ensure(s, owner).pay && HeldBy(t.held, owner) == HeldBy(Ensure(s, owner).held, owner)
    ensures Ensure(t, owner) == t.(held := Ensure(t, owner).held)
    ensures HeldBy(Ensure(t, owner).held, owner) == HeldBy(t.held, owner)
  {
    EnsuredTwice(s.pay, owner);
  }

  lemma SameInputs(t: State, u: State, project: ProjectId, phone: Phone)
    requires u.pay == t.pay && u.projects == t.projects && u.invites == t.invites
    ensures MayAdd(u, project, phone) == MayAdd(t, project, phone)
  {
  }

  lemma NextCheck(s: State, t: State, project: ProjectId, phone: Phone)
    requires project in s.projects && OnlyChecked(s, t, project) && MayAdd(t, project, phone)
    requires t.pay == Ensure(s, s.projects[project].owner).pay
    ensures OnlyChecked(s, Step(t, CheckInvite(project, phone)), project)
    ensures Step(t, CheckInvite(project, phone)).pay == t.pay
  {
    hide MayAdd, Ensure;
    var u := Step(t, CheckInvite(project, phone));
    EnsureAgain(s, t, s.projects[project].owner);
    forall other ensures MayAdd(u, project, other) == MayAdd(t, project, other) { SameInputs(t, u, project, other); }
  }

  lemma {:induction false} ChecksPass(s: State, project: ProjectId, list: seq<Sending>)
    requires project in s.projects && list != [] && forall x | x in list :: MayAdd(s, project, x.phone)
    ensures var t := Run(s, CheckEvents(project, list));
            OnlyChecked(s, t, project) && t.pay == Ensure(s, s.projects[project].owner).pay
  {
    hide Step, MayAdd, OnlyChecked, Ensure;
    var n := |list| - 1;
    var before, e := Run(s, CheckEvents(project, list[..n])), CheckInvite(project, list[n].phone);
    var events := CheckEvents(project, list[..n]) + [e];
    assert events[..|events| - 1] == CheckEvents(project, list[..n]);
    if n == 0 {
      assert before == s;
      FirstCheck(s, project, list[0].phone);
      OneCheckPay(s, project, list[0].phone);
    } else {
      ChecksPass(s, project, list[..n]);
      StillAllowed(s, before, project, list[n].phone);
      NextCheck(s, before, project, list[n].phone);
    }
  }

  lemma OneCheckPay(s: State, project: ProjectId, phone: Phone)
    requires project in s.projects && MayAdd(s, project, phone)
    ensures Step(s, CheckInvite(project, phone)).pay == Ensure(s, s.projects[project].owner).pay
  {
    hide MayAdd, Ensure;
  }

  lemma StillAllowed(s: State, t: State, project: ProjectId, phone: Phone)
    requires project in s.projects && OnlyChecked(s, t, project) && MayAdd(s, project, phone)
    ensures MayAdd(t, project, phone)
  {
  }

  lemma {:induction false} RunAppend(s: State, a: seq<Event>, b: seq<Event>)
    ensures Run(s, a + b) == Run(Run(s, a), b)
  {
    hide Step;
    if b == [] {
      assert a + b == a;
    } else {
      assert (a + b)[..|a + b| - 1] == a + b[..|b| - 1];
      RunAppend(s, a, b[..|b| - 1]);
    }
  }

  // ----- the exact condition -----

  function SplitEvents(project: ProjectId, list: seq<Sending>): seq<Event> {
    CheckEvents(project, list) + SendEvents(project, list)
  }

  /** When the checks of several invitations all pass before any of them is inserted, the limit holds
      afterwards if and only if there were as many free places as distinct phone numbers without a
      pending invitation. */
  lemma {:induction false} SplitInvitesExact(s: State, project: ProjectId, list: seq<Sending>)
    requires Sendable(s, project, list) && list != [] && forall x | x in list :: MayAdd(s, project, x.phone)
    ensures var t := Run(s, SplitEvents(project, list));
            && project in t.projects
            && (Fits(t, project) <==>
                  |NonOwners(s.projects[project].members)| + |Places(s, project)| + |NewPhones(s, project, list)|
                  <= Limit(Ensure(s, s.projects[project].owner), project))
  {
    hide Step, MayAdd, Ensure, HasPending;
    var checked := Run(s, CheckEvents(project, list));
    ChecksPass(s, project, list);
    EnsureKeepsRest(s, s.projects[project].owner);
    RunAppend(s, CheckEvents(project, list), SendEvents(project, list));
    SamePending(s, checked, project);
    assert NewPhones(checked, project, list) == NewPhones(s, project, list);
    SendsCount(checked, project, list);
  }

  lemma SamePending(s: State, t: State, project: ProjectId)
    requires t.invites == s.invites && t.pay.clock == s.pay.clock
    ensures forall phone :: HasPending(t, project, phone) == HasPending(s, project, phone)
  {
  }

  // ----- a run that exceeds the limit -----

  function StandardOwner(): State {
    var sub := P.Subscription(P.Standard, P.Active, Month, 0, 0, Some(Days(30)));
    var pay := P.State(0, map[1 := 0], map[1 := sub], map[], []);
    State(pay, Remembered(map[], pay.subs), map[], map[], map[])
  }

  function SixPhones(): seq<Sending> {
    [Sending(1, 1, Worker), Sending(2, 2, Worker), Sending(3, 3, Worker),
     Sending(4, 4, Worker), Sending(5, 5, Worker), Sending(6, 6, Worker)]
  }

  function WithProject(): State {
    StandardOwner().(projects := map[7 := Project(1, true, map[1 := Owner])])
  }

  lemma ProjectIsCreated()
    ensures Initial(StandardOwner())
    ensures Step(StandardOwner(), Create(7, 1)) == WithProject()
  {
    var s := StandardOwner();
    assert ActiveProjects(s.projects, 1) == {};
    assert P.EnsureSubscription(s.pay, 1) == s.pay;
    assert Remembered(s.held, s.pay.subs) == s.held;
  }

  lemma NothingPending(phone: Phone)
    ensures var s := WithProject();
            && !HasPending(s, 7, phone) && PendingOthers(s.invites, 7, phone, 0) == {} && Places(s, 7) == {}
  {
  }

  lemma StandardHeld()
    ensures var s := WithProject();
            && Ensure(s, 1) == s && Limit(s, 7) == 5 && NonOwners(s.projects[7].members) == {}
            && P.Ensured(s.pay, 1) == Some(s.pay.subs[1])
  {
    var s := WithProject();
    assert P.EnsureSubscription(s.pay, 1) == s.pay;
    assert Remembered(s.held, s.pay.subs) == s.held;
    assert HeldBy(s.held, 1) == {P.Standard};
  }

  lemma CheckPasses(phone: Phone)
    ensures MayAdd(WithProject(), 7, phone)
  {
    hide P.Ensured, PendingOthers, NonOwners;
    StandardHeld();
    NothingPending(phone);
  }

  lemma SixNewPhones()
    ensures |NewPhones(WithProject(), 7, SixPhones())| == 6
  {
    hide WithProject;
    forall phone ensures !HasPending(WithProject(), 7, phone) { NothingPending(phone); }
    hide HasPending;
    var list := SixPhones();
    assert list[0] in list && list[1] in list && list[2] in list && list[3] in list && list[4] in list && list[5] in list;
    assert NewPhones(WithProject(), 7, list) == {1, 2, 3, 4, 5, 6};
  }

  lemma SixSendable()
    ensures Sendable(WithProject(), 7, SixPhones()) && SixPhones() != []
    ensures 7 in WithProject().projects && WithProject().projects[7].owner == 1
  {
    hide Live;
  }

  lemma SixTakeSixPlaces()
    ensures var t := Run(WithProject(), SplitEvents(7, SixPhones())); 7 in t.projects && !Fits(t, 7)
  {
    SixSendable();
    forall x | x in SixPhones() ensures MayAdd(WithProject(), 7, x.phone) { CheckPasses(x.phone); }
    SixNewPhones();
    StandardHeld();
    NothingPending(0);
    hide Step, Run, MayAdd, Ensure, SplitEvents, Limit, NonOwners, Places, Sendable, NewPhones, SixPhones, WithProject, Fits;
    SplitInvitesExact(WithProject(), 7, SixPhones());
  }

  /** A project of the plan for five members ends with six pending invitations. */
  lemma OverflowIsReached()
    ensures Initial(StandardOwner())
    ensures var t := Run(StandardOwner(), [Create(7, 1)] + SplitEvents(7, SixPhones()));
            7 in t.projects && !Fits(t, 7) && !SeatsBounded(t)
  {
    ProjectIsCreated();
    hide Step, Run, SplitEvents, SixPhones, WithProject, StandardOwner, SeatsBounded, Fits;
    OneStep(StandardOwner(), Create(7, 1));
    RunAppend(StandardOwner(), [Create(7, 1)], SplitEvents(7, SixPhones()));
    SixTakeSixPlaces();
    var t := Run(WithProject(), SplitEvents(7, SixPhones()));
    if SeatsBounded(t) { SeatsInclude(t, 7); }
  }

  lemma OneStep(s: State, e: Event)
    ensures Run(s, [e]) == Step(s, e)
  {
    hide Step;
    assert [e][..0] == [];
  }

  lemma SeatsInclude(s: State, project: ProjectId)
    requires project in s.projects && SeatsBounded(s)
    ensures Fits(s, project)
  {
  }
}
