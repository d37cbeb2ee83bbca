/** Plan limits hold in every run. */
module PlanCapacityLaws {
  import opened Options
  import opened Basics
  import opened Calendar
  import opened PlanCapacity
  import P = Payments

  // ----- history -----

  lemma RememberedGrows(held: Held, subs: P.Subscriptions, user: UserId)
    ensures HeldBy(held, user) <= HeldBy(Remembered(held, subs), user)
    ensures user in subs ==> subs[user].plan in HeldBy(Remembered(held, subs), user)
    ensures MostProjects(HeldBy(held, user)) <= MostProjects(HeldBy(Remembered(held, subs), user))
    ensures MostMembers(HeldBy(held, user)) <= MostMembers(HeldBy(Remembered(held, subs), user))
  {
  }

  predicate HeldGrows(before: Held, after: Held, user: UserId) {
    && MostProjects(HeldBy(before, user)) <= MostProjects(HeldBy(after, user))
    && MostMembers(HeldBy(before, user)) <= MostMembers(HeldBy(after, user))
  }

  lemma ClockGrows(s: P.State, e: P.Event)
    ensures s.clock <= P.Step(s, e).clock
  {
    if e.Callback? { assert P.ApplyResult(s, e.result, e.allowed, P.Begun(s, e.age), e.lag).state.clock >= s.clock; }
  }

  // ----- the bounds -----

  ghost predicate ProjectsBounded(projects: Projects, held: Held) {
    forall u :: |ActiveProjects(projects, u)| <= MostProjects(HeldBy(held, u))
  }

  predicate MembersBounded(projects: Projects, held: Held) {
    forall p | p in projects :: |NonOwners(projects[p].members)| <= MostMembers(HeldBy(held, projects[p].owner))
  }

  lemma EnsuredRow(s: State, owner: UserId, sub: P.Subscription)
    requires P.Ensured(s.pay, owner) == Some(sub)
    ensures var t := Ensure(s, owner);
            && owner in t.pay.subs && t.pay.subs[owner] == sub
            && sub.plan in HeldBy(t.held, owner)
  {
    RememberedGrows(s.held, P.EnsureSubscription(s.pay, owner).subs, owner);
  }

  lemma PlanLimits(plan: P.Plan, plans: set<P.Plan>)
    requires plan in plans
    ensures MaxProjects(plan) <= MostProjects(plans) && MaxMembers(plan) <= MostMembers(plans)
  {
  }

  /** The highest limits are those of a plan that was held. */
  lemma MostIsAttained(plans: set<P.Plan>)
    ensures plans == {} ==> MostProjects(plans) == 0 && MostMembers(plans) == 0
    ensures plans != {} ==> exists plan :: plan in plans && MaxProjects(plan) == MostProjects(plans) && MaxMembers(plan) == MostMembers(plans)
  {
    if plans != {} {
      var plan :| plan in plans;
      var best := if P.Max in plans then P.Max else if P.Standard in plans then P.Standard else P.Trial;
      assert plan == P.Max || plan == P.Standard || plan == P.Trial;
      assert best in plans;
    }
  }

  /** What a successful check buys: the current plan, counted among those held, has room. */
  lemma {:induction false} CheckedForProject(s: State, owner: UserId)
    requires MayActivate(s, owner)
    ensures |ActiveProjects(s.projects, owner)| < MostProjects(HeldBy(Ensure(s, owner).held, owner))
    ensures owner in Ensure(s, owner).pay.subs && Paying(Ensure(s, owner).pay.subs[owner])
    ensures |ActiveProjects(s.projects, owner)| < MaxProjects(Ensure(s, owner).pay.subs[owner].plan)
  {
    hide Ensure, P.Ensured, MostProjects, MostMembers, ActiveProjects;
    var sub := P.Ensured(s.pay, owner).value;
    EnsuredRow(s, owner, sub);
    PlanLimits(sub.plan, HeldBy(Ensure(s, owner).held, owner));
  }

  lemma CheckedForMember(s: State, project: ProjectId, phone: Phone)
    requires MayAdd(s, project, phone)
    ensures var owner := s.projects[project].owner;
            var n := |NonOwners(s.projects[project].members)| + |PendingOthers(s.invites, project, phone, s.pay.clock)|;
            && owner in Ensure(s, owner).pay.subs && Paying(Ensure(s, owner).pay.subs[owner])
            && n < MaxMembers(Ensure(s, owner).pay.subs[owner].plan)
            && n < MostMembers(HeldBy(Ensure(s, owner).held, owner))
  {
    hide Ensure, P.Ensured, MostProjects, MostMembers, NonOwners, PendingOthers;
    var owner := s.projects[project].owner;
    var sub := P.Ensured(s.pay, owner).value;
    EnsuredRow(s, owner, sub);
    PlanLimits(sub.plan, HeldBy(Ensure(s, owner).held, owner));
  }

  lemma HeldOnlyGrows(s: State, e: Event, user: UserId)
    ensures HeldGrows(s.held, Step(s, e).held, user)
  {
    hide P.Step, P.EnsureSubscription, MayActivate, Revoked, Live, Remembered, MostProjects, MostMembers;
    match e
    case Pay(e) => RememberedGrows(s.held, P.Step(s.pay, e).subs, user);
    case Create(_, owner) => RememberedGrows(s.held, P.EnsureSubscription(s.pay, owner).subs, user);
    case Restore(p) => EnsureGrows(s, p, user);
    case CheckInvite(p, _) => EnsureGrows(s, p, user);
    case InviteAtOnce(_, p, _, _) => EnsureGrows(s, p, user);
    case AddMember(p, _, _) => EnsureGrows(s, p, user);
    case AcceptToken(i, _) => if i in s.invites { EnsureGrows(s, s.invites[i].project, user); }
    case AcceptAtLogin(i, _) => if i in s.invites { EnsureGrows(s, s.invites[i].project, user); }
    case _ =>
  }

  lemma EnsureGrows(s: State, project: ProjectId, user: UserId)
    ensures project in s.projects ==> HeldGrows(s.held, Ensure(s, s.projects[project].owner).held, user)
  {
    if project in s.projects {
      RememberedGrows(s.held, P.EnsureSubscription(s.pay, s.projects[project].owner).subs, user);
    }
  }

  // ----- active projects -----

  /** A project becomes active only within the owner's current plan, which is a paying one. */
  predicate ActivatedWithinPlan(before: Projects, t: State, u: UserId) {
    |ActiveProjects(t.projects, u)| > |ActiveProjects(before, u)| ==>
      && u in t.pay.subs && Paying(t.pay.subs[u])
      && |ActiveProjects(t.projects, u)| <= MaxProjects(t.pay.subs[u].plan)
      && |ActiveProjects(t.projects, u)| <= MostProjects(HeldBy(t.held, u))
  }

  lemma Activation(s: State, project: ProjectId, row: Project, u: UserId)
    requires MayActivate(s, row.owner) && row.active && (project in s.projects ==> !s.projects[project].active)
    requires project in s.projects ==> s.projects[project].owner == row.owner
    ensures ActivatedWithinPlan(s.projects, Ensure(s, row.owner).(projects := s.projects[project := row]), u)
  {
    hide MayActivate, Ensure, MostProjects;
    CheckedForProject(s, row.owner);
    var active := ActiveProjects(s.projects, u);
    assert ActiveProjects(s.projects[project := row], u) == if u == row.owner then active + {project} else active;
  }

  lemma ActivationStep(s: State, e: Event, u: UserId)
    requires e.Create? || e.Restore?
    ensures ActivatedWithinPlan(s.projects, Step(s, e), u)
  {
    hide Ensure, MayActivate;
    if Step(s, e) != s {
      if e.Create? {
        Activation(s, e.project, Project(e.owner, true, map[e.owner := Owner]), u);
      } else {
        Activation(s, e.project, s.projects[e.project].(active := true), u);
      }
    }
  }

  lemma OtherStepActivatesNothing(s: State, e: Event, u: UserId)
    requires !e.Create? && !e.Restore?
    ensures ActiveProjects(Step(s, e).projects, u) <= ActiveProjects(s.projects, u)
  {
    hide P.Step, P.EnsureSubscription, MayActivate, MayAdd, Revoked, Live, Remembered;
  }

  // ----- members -----

  predicate GrownWithinPlan(before: Projects, t: State, p: ProjectId)
    requires p in t.projects
  {
    |NonOwners(t.projects[p].members)| > (if p in before then |NonOwners(before[p].members)| else 0) ==>
      && var owner := t.projects[p].owner;
         owner in t.pay.subs && Paying(t.pay.subs[owner])
         && |NonOwners(t.projects[p].members)| <= MaxMembers(t.pay.subs[owner].plan)
         && |NonOwners(t.projects[p].members)| <= MostMembers(HeldBy(t.held, owner))
  }

  lemma OneMore(members: Members, user: UserId, role: Role)
    ensures |NonOwners(members[user := role])| <= |NonOwners(members)| + 1
  {
    var after, was := NonOwners(members[user := role]), NonOwners(members);
    assert after == (if role == Owner then was - {user} else was + {user});
  }

  lemma JoinedWithinPlan(s: State, project: ProjectId, phone: Phone, user: UserId, role: Role, p: ProjectId)
    requires MayAdd(s, project, phone) && p in s.projects
    ensures var t := Joined(s, project, user, role);
            && t.projects.Keys == s.projects.Keys && t.projects[p].owner == s.projects[p].owner
            && GrownWithinPlan(s.projects, t, p)
  {
    CheckedForMember(s, project, phone);
    OneMore(s.projects[project].members, user, role);
  }

  lemma MemberStep(s: State, e: Event, p: ProjectId)
    requires (e.AddMember? || e.AcceptToken? || e.AcceptAtLogin?) && p in s.projects
    ensures Step(s, e).projects.Keys == s.projects.Keys && Step(s, e).projects[p].owner == s.projects[p].owner
    ensures GrownWithinPlan(s.projects, Step(s, e), p)
  {
    hide P.EnsureSubscription, Remembered, MayAdd, GrownWithinPlan;
    var t := Step(s, e);
    if t.projects != s.projects {
      if e.AddMember? {
        JoinedWithinPlan(s, e.project, s.phones[e.user], e.user, e.role, p);
        SameMembers(s.projects, Joined(s, e.project, e.user, e.role), t, p);
      } else {
        var i := s.invites[e.invite];
        JoinedWithinPlan(s, i.project, i.phone, e.user, i.role, p);
        SameMembers(s.projects, Joined(s, i.project, e.user, i.role), t, p);
      }
    } else {
      NothingGrown(s.projects, t, p);
    }
  }

  lemma SameMembers(before: Projects, t: State, t': State, p: ProjectId)
    requires t.projects == t'.projects && t.pay == t'.pay && t.held == t'.held && p in t.projects
    ensures GrownWithinPlan(before, t, p) ==> GrownWithinPlan(before, t', p)
  {
  }

  lemma NothingGrown(before: Projects, t: State, p: ProjectId)
    requires p in t.projects && p in before && NonOwners(t.projects[p].members) <= NonOwners(before[p].members)
    ensures GrownWithinPlan(before, t, p)
  {
    SubsetSize(NonOwners(t.projects[p].members), NonOwners(before[p].members));
  }

  lemma OtherStepAddsNobody(s: State, e: Event, p: ProjectId)
    requires !e.AddMember? && !e.AcceptToken? && !e.AcceptAtLogin? && p in Step(s, e).projects
    ensures if p in s.projects
            then Step(s, e).projects[p].owner == s.projects[p].owner
                 && NonOwners(Step(s, e).projects[p].members) <= NonOwners(s.projects[p].members)
            else NonOwners(Step(s, e).projects[p].members) == {}
  {
    hide P.Step, P.EnsureSubscription, MayActivate, MayAdd, Revoked, Live, Remembered;
  }

  /** Every step that activates a project or adds a member ends within the limit of the owner's
      current plan, whatever ran before and beside it. */
  lemma AddsStayWithinPlan(s: State, e: Event)
    ensures forall u :: ActivatedWithinPlan(s.projects, Step(s, e), u)
    ensures forall p | p in Step(s, e).projects :: GrownWithinPlan(s.projects, Step(s, e), p)
  {
    hide Step, GrownWithinPlan;
    forall u ensures ActivatedWithinPlan(s.projects, Step(s, e), u) {
      if e.Create? || e.Restore? {
        ActivationStep(s, e, u);
      } else {
        OtherStepActivatesNothing(s, e, u);
        SubsetSize(ActiveProjects(Step(s, e).projects, u), ActiveProjects(s.projects, u));
      }
    }
    forall p | p in Step(s, e).projects ensures GrownWithinPlan(s.projects, Step(s, e), p) { MembersOfStep(s, e, p); }
  }

  lemma MembersOfStep(s: State, e: Event, p: ProjectId)
    requires p in Step(s, e).projects
    ensures GrownWithinPlan(s.projects, Step(s, e), p)
    ensures p in s.projects ==> Step(s, e).projects[p].owner == s.projects[p].owner
  {
    if (e.AddMember? || e.AcceptToken? || e.AcceptAtLogin?) && p in s.projects {
      MemberStep(s, e, p);
    } else if e.AddMember? || e.AcceptToken? || e.AcceptAtLogin? {
      JoinsCreateNothing(s, e);
    } else {
      OtherStepAddsNobody(s, e, p);
      if p in s.projects { NothingGrown(s.projects, Step(s, e), p); }
    }
  }

  lemma JoinsCreateNothing(s: State, e: Event)
    requires e.AddMember? || e.AcceptToken? || e.AcceptAtLogin?
    ensures Step(s, e).projects.Keys == s.projects.Keys
  {
    hide P.EnsureSubscription, MayAdd, Revoked, Live, Remembered;
  }

  lemma {:induction false} StepKeepsBounds(s: State, e: Event)
    requires ProjectsBounded(s.projects, s.held) && MembersBounded(s.projects, s.held)
    ensures ProjectsBounded(Step(s, e).projects, Step(s, e).held) && MembersBounded(Step(s, e).projects, Step(s, e).held)
  {
    hide Step;
    var t := Step(s, e);
    AddsStayWithinPlan(s, e);
    forall u ensures |ActiveProjects(t.projects, u)| <= MostProjects(HeldBy(t.held, u)) {
      HeldOnlyGrows(s, e, u);
      assert ActivatedWithinPlan(s.projects, t, u);
    }
    forall p | p in t.projects ensures |NonOwners(t.projects[p].members)| <= MostMembers(HeldBy(t.held, t.projects[p].owner)) {
      HeldOnlyGrows(s, e, t.projects[p].owner);
      MembersOfStep(s, e, p);
      assert GrownWithinPlan(s.projects, t, p);
    }
  }

  /** In every run, whatever the interleaving: an owner's active projects and a project's members
      never exceed the highest limit among the plans the owner has held. */
  lemma {:induction false} LimitsHold(s: State, events: seq<Event>)
    requires Initial(s)
    ensures ProjectsBounded(Run(s, events).projects, Run(s, events).held)
    ensures MembersBounded(Run(s, events).projects, Run(s, events).held)
  {
    hide Step;
    if events == [] {
      assert forall u :: ActiveProjects(s.projects, u) == {};
    } else {
      LimitsHold(s, events[..|events| - 1]);
      StepKeepsBounds(Run(s, events[..|events| - 1]), events[|events| - 1]);
    }
  }

  // ----- what an admitted request does -----

  /** Creating or restoring takes one place, exactly when the owner's plan has one. */
  lemma ActivationIsExact(s: State, e: Event, owner: UserId)
    requires e.Create? || e.Restore?
    requires if e.Create? then e.project !in s.projects && owner == e.owner
             else e.project in s.projects && !s.projects[e.project].active && owner == s.projects[e.project].owner
    ensures var t := Step(s, e);
            if MayActivate(s, owner)
            then ActiveProjects(t.projects, owner) == ActiveProjects(s.projects, owner) + {e.project}
            else t == s
  {
    hide MayActivate, Remembered, P.EnsureSubscription;
  }

  /** Adding somebody who is not a member takes one place and ends the pending invitations of the
      phone number, exactly when the plan has room. */
  lemma AddingIsExact(s: State, e: Event)
    requires e.AddMember? && e.project in s.projects && e.user in s.phones && Assignable(e.role)
    ensures var t, phone := Step(s, e), s.phones[e.user];
            if MayAdd(s, e.project, phone) && e.user !in s.projects[e.project].members
            then NonOwners(t.projects[e.project].members) == NonOwners(s.projects[e.project].members) + {e.user}
                 && Pending(t.invites, e.project, s.pay.clock) == PendingOthers(s.invites, e.project, phone, s.pay.clock)
            else t == s
  {
    hide MayAdd, Remembered, P.EnsureSubscription;
  }

  lemma AcceptanceMarks(s: State, e: Event)
    requires (e.AcceptToken? || e.AcceptAtLogin?) && Addressed(s, e.invite, e.user)
    requires MayAdd(s, s.invites[e.invite].project, s.invites[e.invite].phone)
    ensures var t := Step(s, e);
            && e.invite in t.invites && t.invites[e.invite].accepted
            && e.user in t.projects[s.invites[e.invite].project].members
  {
    hide MayAdd, Remembered, P.EnsureSubscription;
  }

  lemma AcceptedStays(s: State, e: Event, id: InviteId)
    requires id in s.invites && s.invites[id].accepted
    ensures id in Step(s, e).invites && Step(s, e).invites[id].accepted
    ensures (e.AcceptToken? || e.AcceptAtLogin?) && e.invite == id ==> Step(s, e) == s
  {
    hide P.Step, MayActivate, MayAdd, Remembered, P.EnsureSubscription;
  }

  lemma {:induction false} AcceptedForever(s: State, events: seq<Event>, id: InviteId)
    requires id in s.invites && s.invites[id].accepted
    ensures id in Run(s, events).invites && Run(s, events).invites[id].accepted
  {
    hide Step;
    if events != [] {
      AcceptedForever(s, events[..|events| - 1], id);
      AcceptedStays(Run(s, events[..|events| - 1]), events[|events| - 1], id);
    }
  }

  /** An invitation is good for one acceptance, by token or at login, whoever tries again and
      whatever happens in between. */
  lemma {:induction false} InvitationIsSpent(s: State, e: Event, events: seq<Event>, again: Event)
    requires (e.AcceptToken? || e.AcceptAtLogin?) && (again.AcceptToken? || again.AcceptAtLogin?)
    requires e.invite == again.invite && Addressed(s, e.invite, e.user)
    requires MayAdd(s, s.invites[e.invite].project, s.invites[e.invite].phone)
    ensures e.user in Step(s, e).projects[s.invites[e.invite].project].members
    ensures var t := Run(Step(s, e), events); Step(t, again) == t
  {
    hide Step, MayAdd;
    AcceptanceMarks(s, e);
    AcceptedForever(Step(s, e), events, e.invite);
    AcceptedStays(Run(Step(s, e), events), again, e.invite);
  }

  // ----- invitations, when each is sent in one piece -----

  /** Members and pending invitations together, with one invitation per phone number. */
  ghost predicate PlacesBounded(s: State) {
    && SeatsBounded(s)
    && OnePerPhone(s.invites, s.pay.clock)
    && Rooted(s.invites, s.projects)
  }

  ghost predicate SeatsBounded(s: State) {
    forall p | p in s.projects ::
      |NonOwners(s.projects[p].members)| + |Pending(s.invites, p, s.pay.clock)| <= MostMembers(HeldBy(s.held, s.projects[p].owner))
  }

  predicate Rooted(invites: Invites, projects: Projects) {
    forall i | i in invites :: invites[i].project in projects
  }

  predicate SameSeat(a: Invite, b: Invite) {
    a.project == b.project && a.phone == b.phone
  }

  ghost predicate OnePerPhone(invites: Invites, now: Instant) {
    forall i, j {:trigger SameSeat(invites[i], invites[j])} |
      i in invites && j in invites && Live(invites[i], now) && Live(invites[j], now) && SameSeat(invites[i], invites[j]) :: i == j
  }

  /** A step other than the insertion of an invitation that was checked earlier. */
  predicate Serial(e: Event) {
    !e.InsertInvite?
  }

  lemma SeatsShrink(before: Invites, at: Instant, after: Invites, now: Instant)
    requires OnePerPhone(before, at)
    requires forall i | i in after :: i in before && SameSeat(after[i], before[i]) && (Live(after[i], now) ==> Live(before[i], at))
    ensures OnePerPhone(after, now)
  {
    assert forall i, j | i in after && j in after && SameSeat(after[i], after[j]) :: SameSeat(before[i], before[j]);
  }

  /** Fewer live invitations and no more members: nothing to lose. */
  lemma PlacesShrink(s: State, t: State)
    requires PlacesBounded(s)
    requires forall u :: HeldGrows(s.held, t.held, u)
    requires forall i | i in t.invites :: i in s.invites && SameSeat(t.invites[i], s.invites[i])
               && (Live(t.invites[i], t.pay.clock) ==> Live(s.invites[i], s.pay.clock))
    requires s.projects.Keys <= t.projects.Keys
    requires forall p | p in t.projects ::
               if p in s.projects then t.projects[p].owner == s.projects[p].owner && NonOwners(t.projects[p].members) <= NonOwners(s.projects[p].members)
               else NonOwners(t.projects[p].members) == {}
    ensures PlacesBounded(t)
  {
    hide MostMembers, MostProjects, OnePerPhone;
    assert OnePerPhone(t.invites, t.pay.clock) by { SeatsShrink(s.invites, s.pay.clock, t.invites, t.pay.clock); }
    forall p | p in t.projects
      ensures |NonOwners(t.projects[p].members)| + |Pending(t.invites, p, t.pay.clock)| <= MostMembers(HeldBy(t.held, t.projects[p].owner))
    {
      assert HeldGrows(s.held, t.held, t.projects[p].owner);
      if p in s.projects {
        SubsetSize(NonOwners(t.projects[p].members), NonOwners(s.projects[p].members));
        SubsetSize(Pending(t.invites, p, t.pay.clock), Pending(s.invites, p, s.pay.clock));
      } else {
        assert Pending(t.invites, p, t.pay.clock) == {};
      }
    }
  }

  /** A check that passes leaves room for one more place under the phone number. */
  lemma {:induction false} PlaceTaken(s: State, t: State, project: ProjectId, phone: Phone)
    requires SeatsBounded(s) && MayAdd(s, project, phone)
    requires t.pay.clock == s.pay.clock && t.held == Ensure(s, s.projects[project].owner).held
    requires t.projects.Keys == s.projects.Keys
    requires forall p | p in s.projects :: t.projects[p].owner == s.projects[p].owner && (p != project ==> t.projects[p] == s.projects[p])
    requires forall p | p in s.projects && p != project :: Pending(t.invites, p, s.pay.clock) == Pending(s.invites, p, s.pay.clock)
    requires |NonOwners(t.projects[project].members)| + |Pending(t.invites, project, s.pay.clock)|
             <= |NonOwners(s.projects[project].members)| + |PendingOthers(s.invites, project, phone, s.pay.clock)| + 1
    ensures SeatsBounded(t)
  {
    hide MostMembers, MostProjects, Ensure, Pending, NonOwners;
    CheckedForMember(s, project, phone);
    forall p | p in t.projects
      ensures |NonOwners(t.projects[p].members)| + |Pending(t.invites, p, t.pay.clock)| <= MostMembers(HeldBy(t.held, t.projects[p].owner))
    {
      EnsureGrows(s, project, t.projects[p].owner);
    }
  }

  lemma EnsureKeepsRest(s: State, user: UserId)
    ensures Ensure(s, user).pay.clock == s.pay.clock
    ensures Ensure(s, user).projects == s.projects && Ensure(s, user).invites == s.invites && Ensure(s, user).phones == s.phones
  {
  }

  lemma RevokedPending(invites: Invites, project: ProjectId, phone: Phone, now: Instant, p: ProjectId)
    ensures Pending(Revoked(invites, project, phone), p, now)
            == if p == project then PendingOthers(invites, project, phone, now) else Pending(invites, p, now)
  {
  }

  lemma RevokedSeats(invites: Invites, project: ProjectId, phone: Phone, now: Instant)
    requires OnePerPhone(invites, now)
    ensures OnePerPhone(Revoked(invites, project, phone), now)
    ensures var r := Revoked(invites, project, phone);
            forall i | i in r && Live(r[i], now) :: !(r[i].project == project && r[i].phone == phone)
  {
    var r := Revoked(invites, project, phone);
    assert forall i, j | i in invites && j in invites && SameSeat(r[i], r[j]) :: SameSeat(invites[i], invites[j]);
  }

  lemma InsertedSeat(invites: Invites, id: InviteId, row: Invite, now: Instant)
    requires OnePerPhone(invites, now) && id !in invites
    requires forall i | i in invites && Live(invites[i], now) :: !(invites[i].project == row.project && invites[i].phone == row.phone)
    ensures OnePerPhone(invites[id := row], now)
  {
    var after := invites[id := row];
    forall i, j | i in after && j in after && Live(after[i], now) && Live(after[j], now) && SameSeat(after[i], after[j])
      ensures i == j
    {
      if i != id && j != id { assert SameSeat(invites[i], invites[j]); }
    }
  }

  lemma InsertedPending(invites: Invites, id: InviteId, row: Invite, now: Instant, p: ProjectId)
    requires id !in invites
    ensures p != row.project ==> Pending(invites[id := row], p, now) == Pending(invites, p, now)
    ensures |Pending(invites[id := row], row.project, now)| <= |Pending(invites, row.project, now)| + 1
  {
    var was := Pending(invites, row.project, now);
    assert Pending(invites[id := row], row.project, now) == if Live(row, now) then was + {id} else was;
  }

  lemma CheckedProjectExists(s: State, project: ProjectId, phone: Phone)
    requires MayAdd(s, project, phone)
    ensures project in s.projects
  {
  }

  lemma {:induction false} InviteKeepsPlaces(s: State, e: Event)
    requires PlacesBounded(s) && e.InviteAtOnce?
    ensures PlacesBounded(Step(s, e))
  {
    hide MostMembers, MayAdd, Ensure, SeatsBounded, OnePerPhone, Pending, PendingOthers;
    var t := Step(s, e);
    if MayAdd(s, e.project, e.phone) {
      CheckedProjectExists(s, e.project, e.phone);
      EnsureKeepsRest(s, s.projects[e.project].owner);
      var now := s.pay.clock;
      var revoked := Revoked(s.invites, e.project, e.phone);
      RevokedSeats(s.invites, e.project, e.phone, now);
      forall p ensures Pending(revoked, p, now) == if p == e.project then PendingOthers(s.invites, e.project, e.phone, now) else Pending(s.invites, p, now) {
        RevokedPending(s.invites, e.project, e.phone, now, p);
      }
      if t.invites != revoked {
        var row := Invite(e.project, e.phone, e.role, now + Days(7), false, false);
        forall p ensures (p != e.project ==> Pending(t.invites, p, now) == Pending(revoked, p, now)) && |Pending(t.invites, e.project, now)| <= |Pending(revoked, e.project, now)| + 1 {
          InsertedPending(revoked, e.invite, row, now, p);
        }
        InsertedSeat(revoked, e.invite, row, now);
      }
      PlaceTaken(s, t, e.project, e.phone);
    }
  }

  lemma {:induction false} AddKeepsPlaces(s: State, e: Event)
    requires PlacesBounded(s) && e.AddMember?
    ensures PlacesBounded(Step(s, e))
  {
    hide MostMembers, MayAdd, Ensure, SeatsBounded, OnePerPhone, Pending, PendingOthers, NonOwners;
    var t := Step(s, e);
    if t != s {
      var phone, now := s.phones[e.user], s.pay.clock;
      EnsureKeepsRest(s, s.projects[e.project].owner);
      OneMore(s.projects[e.project].members, e.user, e.role);
      RevokedSeats(s.invites, e.project, phone, now);
      forall p ensures Pending(t.invites, p, now) == if p == e.project then PendingOthers(s.invites, e.project, phone, now) else Pending(s.invites, p, now) {
        RevokedPending(s.invites, e.project, phone, now, p);
      }
      PlaceTaken(s, t, e.project, phone);
    }
  }

  /** Accepting a live invitation turns its place into a member. */
  lemma AcceptedPending(s: State, id: InviteId, p: ProjectId)
    requires OnePerPhone(s.invites, s.pay.clock) && id in s.invites && Live(s.invites[id], s.pay.clock)
    ensures var i := s.invites[id];
            Pending(Accepted(s, id).invites, p, s.pay.clock)
            == if p == i.project then PendingOthers(s.invites, p, i.phone, s.pay.clock) else Pending(s.invites, p, s.pay.clock)
  {
    forall j | j in s.invites && j != id && s.invites[j].project == s.invites[id].project && Live(s.invites[j], s.pay.clock)
      ensures s.invites[j].phone != s.invites[id].phone
    {
      assert SameSeat(s.invites[j], s.invites[id]) ==> j == id;
    }
  }

  lemma AcceptedSeats(s: State, id: InviteId)
    requires OnePerPhone(s.invites, s.pay.clock) && id in s.invites
    ensures OnePerPhone(Accepted(s, id).invites, s.pay.clock)
  {
    var after := Accepted(s, id).invites;
    assert forall a, b | a in s.invites && b in s.invites && SameSeat(after[a], after[b]) :: SameSeat(s.invites[a], s.invites[b]);
  }

  lemma {:induction false} JoinKeepsPlaces(s: State, id: InviteId, t: State)
    requires PlacesBounded(s) && id in s.invites && Live(s.invites[id], s.pay.clock)
    requires MayAdd(s, s.invites[id].project, s.invites[id].phone)
    requires t.pay.clock == s.pay.clock && t.held == Ensure(s, s.projects[s.invites[id].project].owner).held
    requires t.invites == Accepted(s, id).invites && t.projects.Keys == s.projects.Keys
    requires forall p | p in s.projects :: t.projects[p].owner == s.projects[p].owner && (p != s.invites[id].project ==> t.projects[p] == s.projects[p])
    requires |NonOwners(t.projects[s.invites[id].project].members)| <= |NonOwners(s.projects[s.invites[id].project].members)| + 1
    ensures PlacesBounded(t)
  {
    hide MostMembers, MayAdd, Ensure, SeatsBounded, OnePerPhone, Pending, PendingOthers, NonOwners, Live;
    var i := s.invites[id];
    forall p ensures Pending(t.invites, p, s.pay.clock) == if p == i.project then PendingOthers(s.invites, p, i.phone, s.pay.clock) else Pending(s.invites, p, s.pay.clock) {
      AcceptedPending(s, id, p);
    }
    AcceptedSeats(s, id);
    PlaceTaken(s, t, i.project, i.phone);
  }

  lemma {:induction false} AcceptKeepsPlaces(s: State, e: Event)
    requires PlacesBounded(s) && (e.AcceptToken? || e.AcceptAtLogin?)
    requires Addressed(s, e.invite, e.user) && MayAdd(s, s.invites[e.invite].project, s.invites[e.invite].phone)
    ensures PlacesBounded(Step(s, e))
  {
    hide PlacesBounded, MostMembers, MayAdd, Ensure, NonOwners;
    var i := s.invites[e.invite];
    EnsureKeepsRest(s, s.projects[i.project].owner);
    OneMore(s.projects[i.project].members, e.user, i.role);
    JoinKeepsPlaces(s, e.invite, Step(s, e));
  }

  lemma {:induction false} OtherStepKeepsPlaces(s: State, e: Event)
    requires PlacesBounded(s) && Serial(e) && !e.InviteAtOnce? && !e.AddMember? && !e.AcceptToken?
    requires e.AcceptAtLogin? ==> !Addressed(s, e.invite, e.user) || !MayAdd(s, s.invites[e.invite].project, s.invites[e.invite].phone)
    ensures PlacesBounded(Step(s, e))
  {
    hide PlacesBounded, MostMembers;
    var t := Step(s, e);
    forall u ensures HeldGrows(s.held, t.held, u) { HeldOnlyGrows(s, e, u); }
    forall p | p in t.projects
      ensures if p in s.projects then t.projects[p].owner == s.projects[p].owner && NonOwners(t.projects[p].members) <= NonOwners(s.projects[p].members)
              else NonOwners(t.projects[p].members) == {}
    {
      if !e.AcceptAtLogin? { OtherStepAddsNobody(s, e, p); }
    }
    OtherStepInvites(s, e);
    PlacesShrink(s, t);
  }

  lemma OtherStepInvites(s: State, e: Event)
    requires Serial(e) && !e.InviteAtOnce? && !e.AddMember? && !e.AcceptToken?
    requires e.AcceptAtLogin? ==> !Addressed(s, e.invite, e.user) || !MayAdd(s, s.invites[e.invite].project, s.invites[e.invite].phone)
    ensures var t := Step(s, e);
            && s.projects.Keys <= t.projects.Keys
            && (forall i | i in t.invites :: i in s.invites && SameSeat(t.invites[i], s.invites[i])
                 && (Live(t.invites[i], t.pay.clock) ==> Live(s.invites[i], s.pay.clock)))
  {
    hide P.Step, MayActivate, MayAdd, Remembered;
    if e.Pay? { ClockGrows(s.pay, e.e); }
  }

  lemma {:induction false} StepKeepsPlaces(s: State, e: Event)
    requires PlacesBounded(s) && Serial(e)
    ensures PlacesBounded(Step(s, e))
  {
    hide Step, MayAdd, Addressed, PlacesBounded;
    if e.InviteAtOnce? {
      InviteKeepsPlaces(s, e);
    } else if e.AddMember? {
      AddKeepsPlaces(s, e);
    } else if (e.AcceptToken? || e.AcceptAtLogin?) && AddressedWithRoom(s, e) {
      AcceptKeepsPlaces(s, e);
    } else if e.AcceptToken? {
      RefusedToken(s, e);
    } else {
      OtherStepKeepsPlaces(s, e);
    }
  }

  /** When every invitation is sent in one piece, members and pending invitations together stay
      within the highest limit of the plans held, in every run. */
  lemma {:induction false} PlacesHold(s: State, events: seq<Event>)
    requires Initial(s) && forall e | e in events :: Serial(e)
    ensures PlacesBounded(Run(s, events))
  {
    hide Step;
    if events != [] {
      PlacesHold(s, events[..|events| - 1]);
      StepKeepsPlaces(Run(s, events[..|events| - 1]), events[|events| - 1]);
    }
  }

  predicate AddressedWithRoom(s: State, e: Event)
    requires e.AcceptToken? || e.AcceptAtLogin?
  {
    Addressed(s, e.invite, e.user) && MayAdd(s, s.invites[e.invite].project, s.invites[e.invite].phone)
  }

  lemma RefusedToken(s: State, e: Event)
    requires e.AcceptToken? && !AddressedWithRoom(s, e)
    ensures Step(s, e) == s
  {
  }

  /** Sending in one piece is the three steps one after the other, once the check has passed. */
  lemma {:induction false} InviteIsThreeSteps(s: State, id: InviteId, project: ProjectId, phone: Phone, role: Role)
    requires MayAdd(s, project, phone)
    ensures Step(s, InviteAtOnce(id, project, phone, role))
            == Step(Step(Step(s, CheckInvite(project, phone)), RevokeInvites(project, phone)), InsertInvite(id, project, phone, role))
  {
    hide MayAdd, Revoked, Remembered, P.EnsureSubscription;
    CheckedProjectExists(s, project, phone);
  }
}
