/** Projects, members and invitations as mutable tables.  Each method is one request that keeps the
    limits; its contract ties the new rows to steps of the plan capacity model. */
module CapacityStore {
  import opened Options
  import opened Calendar
  import opened PlanCapacity
  import opened PlanCapacityLaws
  import SplitInvites
  import CapacityRows
  import P = Payments

  datatype Verdict = Allowed | Expired | LimitReached | NotFound

  /** Projects, members and pending invitations are within what the owner's plans have allowed. */
  ghost predicate WithinLimits(s: State) {
    ProjectsBounded(s.projects, s.held) && MembersBounded(s.projects, s.held) && PlacesBounded(s)
  }

  lemma StepKeepsLimits(s: State, e: Event)
    requires WithinLimits(s) && Serial(e)
    ensures WithinLimits(Step(s, e))
  {
    hide Step, PlacesBounded, ProjectsBounded, MembersBounded;
    StepKeepsBounds(s, e);
    StepKeepsPlaces(s, e);
  }

  lemma EnsureKeepsLimits(s: State, user: UserId)
    requires WithinLimits(s)
    ensures WithinLimits(Ensure(s, user))
  {
    hide WithinLimits;
    StepKeepsLimits(s, Pay(P.Look(user)));
  }

  class Tables {
    var pay: P.State
    var phones: map<UserId, Phone>
    var projects: Projects
    var invites: Invites
    ghost var held: Held

    ghost function Rows(): State
      reads this
    {
      State(pay, held, phones, projects, invites)
    }

    ghost predicate Sound()
      reads this
    {
      WithinLimits(Rows())
    }

    constructor (pay: P.State)
      ensures Rows() == State(pay, Remembered(map[], pay.subs), map[], map[], map[]) && Initial(Rows()) && Sound()
    {
      this.pay, phones, projects, invites, held := pay, map[], map[], map[], Remembered(map[], pay.subs);
      new;
      LimitsHold(Rows(), []);
      PlacesHold(Rows(), []);
      assert Run(Rows(), []) == Rows();
    }

    // ----- counting -----

    method CountActiveProjects(owner: UserId) returns (n: nat)
      ensures n == |ActiveProjects(projects, owner)|
    {
      n := 0;
      var rest := projects.Keys;
      ghost var counted: set<ProjectId> := {};
      while rest != {}
        invariant rest <= projects.Keys && n == |counted|
        invariant counted == set p | p in ActiveProjects(projects, owner) && p !in rest
        decreases rest
      {
        var p :| p in rest;
        rest := rest - {p};
        if projects[p].owner == owner && projects[p].active {
          n := n + 1;
          counted := counted + {p};
        }
      }
      assert counted == ActiveProjects(projects, owner);
    }

    method CountParticipants(project: ProjectId, phone: Phone) returns (n: nat)
      requires project in projects
      ensures n == |NonOwners(projects[project].members)| + |PendingOthers(invites, project, phone, pay.clock)|
    {
      var members := projects[project].members;
      var users, ids := members.Keys, invites.Keys;
      var count := 0;
      ghost var counted: set<UserId> := {};
      while users != {}
        invariant users <= members.Keys && count == |counted|
        invariant counted == set u | u in NonOwners(members) && u !in users
        decreases users
      {
        var u :| u in users;
        users := users - {u};
        if members[u] != Owner {
          count := count + 1;
          counted := counted + {u};
        }
      }
      assert counted == NonOwners(members);
      var pending := 0;
      ghost var seen: set<InviteId> := {};
      while ids != {}
        invariant ids <= invites.Keys && pending == |seen|
        invariant seen == set i | i in PendingOthers(invites, project, phone, pay.clock) && i !in ids
        decreases ids
      {
        var i :| i in ids;
        ids := ids - {i};
        if invites[i].project == project && Live(invites[i], pay.clock) && invites[i].phone != phone {
          pending := pending + 1;
          seen := seen + {i};
        }
      }
      assert seen == PendingOthers(invites, project, phone, pay.clock);
      n := count + pending;
    }

    // ----- the checks -----

    /** `ensureSubscription` with the row locked. */
    method EnsureSubscription(user: UserId) returns (sub: Option<P.Subscription>)
      requires Sound()
      modifies this`pay, this`held
      ensures Rows() == Ensure(old(Rows()), user) && Sound()
      ensures sub == if user in pay.subs then Some(pay.subs[user]) else None
      ensures sub == P.Ensured(old(pay), user)
    {
      hide WithinLimits;
      EnsureKeepsLimits(Rows(), user);
      pay := Refresh(pay, user);
      held := Remembered(held, pay.subs);
      sub := if user in pay.subs then Some(pay.subs[user]) else None;
    }

    /** Inserts the trial row of a known user, and expires a row that has lapsed. */
    static method Refresh(pay: P.State, user: UserId) returns (after: P.State)
      ensures after == P.EnsureSubscription(pay, user)
      ensures P.Ensured(pay, user) == if user in after.subs then Some(after.subs[user]) else None
    {
      var subs := pay.subs;
      if user !in subs && user in pay.users {
        subs := subs[user := P.FreshTrial(pay.users[user])];
      }
      if user in subs && P.Lapsed(subs[user], pay.clock) {
        subs := subs[user := subs[user].(status := P.SubscriptionStatus.Expired)];
      }
      after := pay.(subs := subs);
      assert subs == P.EnsureSubscription(pay, user).subs;
    }

    /** `ensureProjectCreationAllowed`: a paying owner may have one more active project within the
        limit of the plan now held. */
    method EnsureProjectCreationAllowed(owner: UserId) returns (v: Verdict)
      requires Sound()
      modifies this`pay, this`held
      ensures Rows() == Ensure(old(Rows()), owner) && Sound()
      ensures v == NotFound <==> owner !in pay.subs
      ensures v == Expired <==> owner in pay.subs && pay.subs[owner].status == P.Expired
      ensures v == LimitReached <==> owner in pay.subs && pay.subs[owner].status != P.Expired
                                     && |ActiveProjects(projects, owner)| >= (match pay.subs[owner].plan case Trial => 1 case Standard => 5 case Max => 20)
      ensures v == Allowed <==> old(MayActivate(Rows(), owner))
      ensures v == Allowed <==> old(CapacityRows.RoomForProject(Rows(), owner))
      ensures v == Allowed ==> |ActiveProjects(projects, owner)| + 1 <= MostProjects(HeldBy(held, owner))
    {
      hide MayActivate, WithinLimits, CapacityRows.RoomForProject;
      ghost var before := Rows();
      CapacityRows.ChecksInNumbers(before, owner, 0, 0);
      var sub := EnsureSubscription(owner);
      var count := CountActiveProjects(owner);
      ActivationVerdict(before, owner);
      if sub.None? { return NotFound; }
      if sub.value.status != P.Trialing && sub.value.status != P.Active { return Expired; }
      if count >= MaxProjects(sub.value.plan) { return LimitReached; }
      v := Allowed;
    }

    /** `ensureProjectMemberCapacity`: the project may have one more participant, besides whoever has
        the phone number, within the limit of the plan its owner now holds. */
    method EnsureProjectMemberCapacity(project: ProjectId, phone: Phone) returns (v: Verdict)
      requires Sound()
      modifies this`pay, this`held
      ensures Rows() == (if project in projects then Ensure(old(Rows()), projects[project].owner) else old(Rows())) && Sound()
      ensures v == Allowed <==> old(MayAdd(Rows(), project, phone))
      ensures v == Allowed <==> old(CapacityRows.RoomForMember(Rows(), project, phone))
      ensures v == NotFound <==> project !in projects || projects[project].owner !in pay.subs
      ensures v == Expired <==> project in projects && projects[project].owner in pay.subs
                                && pay.subs[projects[project].owner].status == P.Expired
      ensures v == LimitReached ==>
                |NonOwners(projects[project].members)| + |PendingOthers(invites, project, phone, pay.clock)|
                >= match pay.subs[projects[project].owner].plan case Trial => 0 case Standard => 5 case Max => 20
      ensures v == Allowed ==>
                |NonOwners(projects[project].members)| + |PendingOthers(invites, project, phone, pay.clock)| + 1
                <= MostMembers(HeldBy(held, projects[project].owner))
    {
      hide MayAdd, WithinLimits, CapacityRows.RoomForMember;
      ghost var before := Rows();
      CapacityRows.ChecksInNumbers(before, 0, project, phone);
      MemberVerdict(before, project, phone);
      if project !in projects { return NotFound; }
      var owner := projects[project].owner;
      EnsureKeepsRest(before, owner);
      var sub := EnsureSubscription(owner);
      if sub.None? { return NotFound; }
      if sub.value.status != P.Trialing && sub.value.status != P.Active { return Expired; }
      var count := CountParticipants(project, phone);
      if count >= MaxMembers(sub.value.plan) { return LimitReached; }
      v := Allowed;
    }

    // ----- requests -----

    method CreateProject(id: ProjectId, owner: UserId) returns (v: Verdict)
      requires Sound() && id !in projects
      modifies this
      ensures Rows() == Step(old(Rows()), Create(id, owner)) && Sound()
      ensures v == Allowed <==> id in projects
    {
      hide WithinLimits, MayActivate, Step, Ensure;
      StepKeepsLimits(Rows(), Create(id, owner));
      CreateStep(Rows(), id, owner);
      var savedPay, savedHeld := pay, held;
      v := EnsureProjectCreationAllowed(owner);
      if v != Allowed {
        pay, held := savedPay, savedHeld;
        return;
      }
      projects := projects[id := Project(owner, true, map[owner := Owner])];
    }

    /** `updateProject` with a new status. */
    method SetActive(id: ProjectId, active: bool) returns (v: Verdict)
      requires Sound()
      modifies this
      ensures Rows() == Step(old(Rows()), if active then Restore(id) else Archive(id)) && Sound()
      ensures v == Allowed <==> id in projects && projects[id].active == active
    {
      hide WithinLimits, MayActivate;
      StepKeepsLimits(Rows(), if active then Restore(id) else Archive(id));
      if id !in projects { return NotFound; }
      var project := projects[id];
      if active && !project.active {
        var savedPay, savedHeld := pay, held;
        v := EnsureProjectCreationAllowed(project.owner);
        if v != Allowed {
          pay, held := savedPay, savedHeld;
          return;
        }
      }
      projects := projects[id := project.(active := active)];
      assert projects[id] == project ==> projects == old(projects);
      v := Allowed;
    }

    /** The branch of `CreateProjectInvite` for a phone number that has an account. */
    method AddKnownUser(id: ProjectId, user: UserId, role: Role) returns (added: bool)
      requires Sound() && user in phones && Assignable(role)
      modifies this
      ensures Rows() == Step(old(Rows()), AddMember(id, user, role)) && Sound()
      ensures added ==> id in projects && user in projects[id].members && user !in old(projects)[id].members
      ensures added ==> forall i | i in invites && Live(invites[i], pay.clock) && invites[i].project == id :: invites[i].phone != phones[user]
    {
      hide Remembered, NonOwners, PendingOthers, P.EnsureSubscription, P.Ensured, WithinLimits;
      StepKeepsLimits(Rows(), AddMember(id, user, role));
      var savedPay, savedHeld := pay, held;
      var v := EnsureProjectMemberCapacity(id, phones[user]);
      if v != Allowed || user in projects[id].members {
        pay, held := savedPay, savedHeld;
        return false;
      }
      projects := projects[id := WithMember(projects[id], user, role)];
      CloseInvites(id, phones[user]);
      added := true;
    }

    /** `UPDATE project_invites SET revoked_at = now()` for the pending ones of a phone number. */
    method CloseInvites(project: ProjectId, phone: Phone)
      modifies this`invites
      ensures invites == Revoked(old(invites), project, phone) && invites.Keys == old(invites).Keys
    {
      var rest := invites.Keys;
      while rest != {}
        invariant rest <= invites.Keys == old(invites).Keys
        invariant forall i | i in invites ::
                    invites[i] == if i in rest then old(invites)[i] else Revoked(old(invites), project, phone)[i]
        decreases rest
      {
        var i :| i in rest;
        rest := rest - {i};
        if invites[i].project == project && invites[i].phone == phone && !invites[i].accepted {
          invites := invites[i := invites[i].(revoked := true)];
        }
      }
    }

    /** The last commit of an invitation; the limit survives it exactly when a place is free now. */
    method InsertInvitation(id: InviteId, project: ProjectId, phone: Phone, role: Role)
      requires project in projects && id !in invites && Assignable(role)
      modifies this`invites
      ensures Rows() == Step(old(Rows()), InsertInvite(id, project, phone, role))
      ensures SplitInvites.Fits(Rows(), project) <==>
                |NonOwners(projects[project].members)| + |Pending(old(invites), project, pay.clock)|
                < MostMembers(HeldBy(held, projects[project].owner))
    {
      SplitInvites.InsertionIsExact(Rows(), project, SplitInvites.Sending(id, phone, role));
      invites := invites[id := Invite(project, phone, role, pay.clock + Days(7), false, false)];
    }

    /** The branch for a new phone number, with nothing in between its three commits. */
    method InviteNewPhone(id: InviteId, project: ProjectId, phone: Phone, role: Role) returns (v: Verdict)
      requires Sound() && id !in invites && Assignable(role)
      modifies this
      ensures Sound()
      ensures v != Allowed ==> Rows() == old(Rows())
      ensures v == Allowed ==>
                Rows() == Step(Step(Step(old(Rows()), CheckInvite(project, phone)), RevokeInvites(project, phone)),
                               InsertInvite(id, project, phone, role))
      ensures v == Allowed <==> old(MayAdd(Rows(), project, phone))
    {
      hide Step, MayAdd, WithinLimits, Ensure, Revoked, SplitInvites.Fits, MostMembers, Pending;
      ghost var before := Rows();
      StepKeepsLimits(before, InviteAtOnce(id, project, phone, role));
      var savedPay, savedHeld := pay, held;
      v := EnsureProjectMemberCapacity(project, phone);
      if v != Allowed {
        pay, held := savedPay, savedHeld;
        return;
      }
      EnsureKeepsRest(before, projects[project].owner);
      CheckStep(before, project, phone);
      ghost var checked := Rows();
      CloseInvites(project, phone);
      RevokeStep(checked, project, phone);
      InsertInvitation(id, project, phone, role);
      InviteIsThreeSteps(before, id, project, phone, role);
    }

    /** `AcceptProjectInvite`, once the token has found the invitation. */
    method AcceptInvite(id: InviteId, user: UserId) returns (accepted: bool)
      requires Sound()
      modifies this
      ensures Rows() == Step(old(Rows()), AcceptToken(id, user)) && Sound()
      ensures accepted ==> id in invites && invites[id].accepted && !old(invites)[id].accepted
      ensures accepted ==> user in projects[invites[id].project].members
    {
      hide WithinLimits, Remembered, NonOwners, PendingOthers, P.EnsureSubscription, P.Ensured;
      StepKeepsLimits(Rows(), AcceptToken(id, user));
      if id !in invites || !Live(invites[id], pay.clock) { return false; }
      var invite := invites[id];
      if user !in phones || phones[user] != invite.phone || invite.project !in projects { return false; }
      var savedPay, savedHeld := pay, held;
      var v := EnsureProjectMemberCapacity(invite.project, invite.phone);
      if v != Allowed {
        pay, held := savedPay, savedHeld;
        return false;
      }
      projects := projects[invite.project := WithMember(projects[invite.project], user, invite.role)];
      invites := invites[id := invite.(accepted := true)];
      accepted := true;
    }

    /** One round of the loop below. */
    method AcceptOne(id: InviteId, user: UserId)
      requires Sound() && Addressed(Rows(), id, user)
      modifies this
      ensures Rows() == Step(old(Rows()), AcceptAtLogin(id, user)) && Sound()
    {
      hide WithinLimits, Remembered, NonOwners, PendingOthers, P.EnsureSubscription, P.Ensured;
      StepKeepsLimits(Rows(), AcceptAtLogin(id, user));
      var invite := invites[id];
      var v := EnsureProjectMemberCapacity(invite.project, invite.phone);
      if v != Allowed { return; }
      if user !in projects[invite.project].members {
        projects := projects[invite.project := WithMember(projects[invite.project], user, invite.role)];
      }
      invites := invites[id := invite.(accepted := true)];
    }

    /** The loop of `VerifySMSCode` over the pending invitations of the user's phone number. */
    method AcceptPendingInvites(user: UserId, pending: seq<InviteId>)
      requires Sound() && forall i | i in pending :: Addressed(Rows(), i, user)
      requires forall i, j | 0 <= i < j < |pending| :: pending[i] != pending[j]
      modifies this
      ensures Sound()
      ensures Rows() == Run(old(Rows()), seq(|pending|, k requires 0 <= k < |pending| => AcceptAtLogin(pending[k], user)))
    {
      hide Step, MayAdd, WithinLimits;
      ghost var events := [];
      for k := 0 to |pending|
        invariant Sound()
        invariant events == seq(k, j requires 0 <= j < k => AcceptAtLogin(pending[j], user))
        invariant Rows() == Run(old(Rows()), events)
        invariant forall j | k <= j < |pending| :: Addressed(Rows(), pending[j], user)
      {
        ghost var before := Rows();
        AcceptOne(pending[k], user);
        assert (events + [AcceptAtLogin(pending[k], user)])[..k] == events;
        events := events + [AcceptAtLogin(pending[k], user)];
        forall j | k < j < |pending| ensures Addressed(Rows(), pending[j], user) {
          OthersStayAddressed(before, pending[k], pending[j], user);
        }
      }
    }
  }

  lemma OthersStayAddressed(s: State, id: InviteId, other: InviteId, user: UserId)
    requires id != other && Addressed(s, other, user)
    ensures Addressed(Step(s, AcceptAtLogin(id, user)), other, user)
  {
    hide MayAdd, Remembered;
  }

  /** The check in terms of the rows it leaves. */
  lemma ActivationVerdict(s: State, owner: UserId)
    ensures var t := Ensure(s, owner);
            && (MayActivate(s, owner) <==>
                  owner in t.pay.subs && Paying(t.pay.subs[owner])
                  && |ActiveProjects(s.projects, owner)| < MaxProjects(t.pay.subs[owner].plan))
            && (MayActivate(s, owner) ==> |ActiveProjects(s.projects, owner)| < MostProjects(HeldBy(t.held, owner)))
  {
    hide ActiveProjects;
    if MayActivate(s, owner) { CheckedForProject(s, owner); }
  }

  lemma MemberVerdict(s: State, project: ProjectId, phone: Phone)
    ensures MayAdd(s, project, phone) ==> project in s.projects
    ensures project in s.projects ==>
              var owner := s.projects[project].owner;
              var t := Ensure(s, owner);
              var n := |NonOwners(s.projects[project].members)| + |PendingOthers(s.invites, project, phone, s.pay.clock)|;
              && (MayAdd(s, project, phone) <==>
                    owner in t.pay.subs && Paying(t.pay.subs[owner]) && n < MaxMembers(t.pay.subs[owner].plan))
              && (MayAdd(s, project, phone) ==> n < MostMembers(HeldBy(t.held, owner)))
  {
    hide NonOwners, PendingOthers;
    if MayAdd(s, project, phone) { CheckedForMember(s, project, phone); }
  }

  lemma CreateStep(s: State, id: ProjectId, owner: UserId)
    requires id !in s.projects
    ensures Ensure(s, owner).projects == s.projects
    ensures Step(s, Create(id, owner)) ==
            if MayActivate(s, owner)
            then Ensure(s, owner).(projects := s.projects[id := Project(owner, true, map[owner := Owner])]) else s
  {
    hide MayActivate;
  }

  lemma CheckStep(s: State, project: ProjectId, phone: Phone)
    requires MayAdd(s, project, phone)
    ensures project in s.projects && Step(s, CheckInvite(project, phone)) == Ensure(s, s.projects[project].owner)
  {
    hide Ensure;
  }

  lemma RevokeStep(s: State, project: ProjectId, phone: Phone)
    ensures Step(s, RevokeInvites(project, phone)) == s.(invites := Revoked(s.invites, project, phone))
  {
  }
}
