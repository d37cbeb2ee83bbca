/** The plan limits in numbers and columns: when a request has room, and what each request writes. */
module CapacityRows {
  import opened Options
  import opened PlanCapacity
  import P = Payments

  // ----- room -----

  /** The owner is in a running trial or paid period; without a subscription row, in the 30 days since
      registration. */
  predicate Subscribed(pay: P.State, owner: UserId) {
    if owner in pay.subs then
      var sub := pay.subs[owner];
      || (sub.status == P.Trialing && sub.trialEndsAt > pay.clock)
      || (sub.status == P.Active && (sub.periodEnd.None? || sub.periodEnd.value > pay.clock))
    else owner in pay.users && pay.users[owner] + 2_592_000_000_000 > pay.clock
  }

  function PlanOf(pay: P.State, owner: UserId): P.Plan {
    if owner in pay.subs then pay.subs[owner].plan else P.Trial
  }

  function OwnedActive(s: State, owner: UserId): set<ProjectId> {
    set p | p in s.projects && s.projects[p].owner == owner && s.projects[p].active
  }

  /** One active project in a trial, 5 and 20 in the plans. */
  predicate RoomForProject(s: State, owner: UserId) {
    Subscribed(s.pay, owner) &&
    match PlanOf(s.pay, owner)
    case Trial => |OwnedActive(s, owner)| < 1
    case Standard => |OwnedActive(s, owner)| < 5
    case Max => |OwnedActive(s, owner)| < 20
  }

  /** Everybody but the owner. */
  function Others(s: State, project: ProjectId): set<UserId>
    requires project in s.projects
  {
    set u | u in s.projects[project].members && s.projects[project].members[u] != Owner
  }

  /** Invitations of other phone numbers that are neither accepted nor revoked nor expired. */
  function Invited(s: State, project: ProjectId, phone: Phone): set<InviteId> {
    set i | i in s.invites && s.invites[i].project == project && s.invites[i].phone != phone
            && !s.invites[i].accepted && !s.invites[i].revoked && s.invites[i].expires > s.pay.clock
  }

  /** No participant in a trial, 5 and 20 in the plans. */
  predicate RoomForMember(s: State, project: ProjectId, phone: Phone) {
    project in s.projects && Subscribed(s.pay, s.projects[project].owner) &&
    match PlanOf(s.pay, s.projects[project].owner)
    case Trial => false
    case Standard => |Others(s, project)| + |Invited(s, project, phone)| < 5
    case Max => |Others(s, project)| + |Invited(s, project, phone)| < 20
  }

  lemma ChecksInNumbers(s: State, owner: UserId, project: ProjectId, phone: Phone)
    ensures MayActivate(s, owner) <==> RoomForProject(s, owner)
    ensures MayAdd(s, project, phone) <==> RoomForMember(s, project, phone)
  {
    assert OwnedActive(s, owner) == ActiveProjects(s.projects, owner);
    if project in s.projects { assert Others(s, project) == NonOwners(s.projects[project].members); }
    assert Invited(s, project, phone) == PendingOthers(s.invites, project, phone, s.pay.clock);
  }

  // ----- projects -----

  /** Creating, restoring and archiving in full. */
  lemma ProjectRows(s: State, project: ProjectId, owner: UserId)
    ensures Step(s, Create(project, owner)) ==
            if project !in s.projects && RoomForProject(s, owner)
            then Ensure(s, owner).(projects := s.projects[project := Project(owner, true, map[owner := Owner])]) else s
    ensures project in s.projects ==>
              var row := s.projects[project];
              && Step(s, Restore(project)) ==
                 (if !row.active && RoomForProject(s, row.owner)
                  then Ensure(s, row.owner).(projects := s.projects[project := Project(row.owner, true, row.members)]) else s)
              && Step(s, Archive(project)) == s.(projects := s.projects[project := Project(row.owner, false, row.members)])
    ensures project !in s.projects ==> Step(s, Restore(project)) == s && Step(s, Archive(project)) == s
  {
    hide MayActivate, Ensure, RoomForProject;
    ChecksInNumbers(s, owner, project, 0);
    if project in s.projects { ChecksInNumbers(s, s.projects[project].owner, project, 0); }
  }

  /** Within 30 days of registration a user who has no subscription row and no project gets one. */
  lemma FirstProject(s: State, project: ProjectId, owner: UserId)
    requires owner in s.pay.users && owner !in s.pay.subs && s.pay.clock < s.pay.users[owner] + 2_592_000_000_000
    requires project !in s.projects && forall p | p in s.projects :: s.projects[p].owner != owner
    ensures var t := Step(s, Create(project, owner));
            && t.projects == s.projects[project := Project(owner, true, map[owner := Owner])]
            && owner in t.pay.subs && t.pay.subs[owner].status == P.Trialing
  {
    assert OwnedActive(s, owner) == {};
    ProjectRows(s, project, owner);
    hide Step;
  }

  // ----- members -----

  function Joining(s: State, project: ProjectId, user: UserId, role: Role): Projects
    requires project in s.projects
  {
    var row := s.projects[project];
    s.projects[project := Project(row.owner, row.active, row.members[user := role])]
  }

  /** The user may accept the invitation: it is pending and for the user's phone number. */
  predicate MayAccept(s: State, id: InviteId, user: UserId) {
    && id in s.invites && !s.invites[id].accepted && !s.invites[id].revoked && s.invites[id].expires > s.pay.clock
    && user in s.phones && s.phones[user] == s.invites[id].phone && s.invites[id].project in s.projects
  }

  function AcceptedRow(s: State, id: InviteId): Invites
    requires id in s.invites
  {
    var i := s.invites[id];
    s.invites[id := Invite(i.project, i.phone, i.role, i.expires, true, i.revoked)]
  }

  function Closed(s: State, project: ProjectId, phone: Phone): Invites {
    map i | i in s.invites ::
      if s.invites[i].project == project && s.invites[i].phone == phone && !s.invites[i].accepted
      then s.invites[i].(revoked := true) else s.invites[i]
  }

  /** Adding a known user, who must not be a member, and only in a role below owner. */
  lemma AddedRows(s: State, project: ProjectId, user: UserId, role: Role)
    ensures Step(s, AddMember(project, user, role)) ==
            if project in s.projects && user in s.phones && role != Owner && user !in s.projects[project].members
               && RoomForMember(s, project, s.phones[user])
            then Ensure(s, s.projects[project].owner).(projects := Joining(s, project, user, role),
                                                       invites := Closed(s, project, s.phones[user]))
            else s
  {
    hide MayAdd, Ensure, RoomForMember;
    if user in s.phones { ChecksInNumbers(s, user, project, s.phones[user]); }
  }

  /** Accepting by token gives the invited role; accepting at sign-in leaves a member's role alone and
      skips an invitation without room. */
  lemma AcceptedRows(s: State, id: InviteId, user: UserId)
    ensures MayAccept(s, id, user) ==>
              var i := s.invites[id];
              var t := Ensure(s, s.projects[i.project].owner);
              var room := RoomForMember(s, i.project, i.phone);
              && Step(s, AcceptToken(id, user)) ==
                 (if room then t.(projects := Joining(s, i.project, user, i.role), invites := AcceptedRow(s, id)) else s)
              && Step(s, AcceptAtLogin(id, user)) ==
                 if !room then t
                 else t.(projects := if user in s.projects[i.project].members then s.projects else Joining(s, i.project, user, i.role),
                         invites := AcceptedRow(s, id))
    ensures !MayAccept(s, id, user) ==> Step(s, AcceptToken(id, user)) == s && Step(s, AcceptAtLogin(id, user)) == s
  {
    hide MayAdd, RoomForMember, P.EnsureSubscription, Remembered;
    if id in s.invites { ChecksInNumbers(s, user, s.invites[id].project, s.invites[id].phone); }
  }

  /** The owner's role is fixed, and nobody else becomes owner; others may be given a role or removed. */
  lemma RoleRows(s: State, project: ProjectId, user: UserId, role: Role)
    ensures project in s.projects && user in s.projects[project].members && s.projects[project].members[user] != Owner ==>
              var row := s.projects[project];
              && Step(s, SetRole(project, user, role)) ==
                 (if role != Owner then s.(projects := Joining(s, project, user, role)) else s)
              && Step(s, Remove(project, user)) == s.(projects := s.projects[project := Project(row.owner, row.active, row.members - {user})])
    ensures project !in s.projects || user !in s.projects[project].members || s.projects[project].members[user] == Owner ==>
              Step(s, SetRole(project, user, role)) == s && Step(s, Remove(project, user)) == s
  {
  }

  /** A user's phone number, and payments, change nothing about projects and invitations. */
  lemma OtherRows(s: State, user: UserId, phone: Phone, e: P.Event)
    ensures Step(s, SetPhone(user, phone)) == s.(phones := s.phones[user := phone])
    ensures var t := Step(s, Pay(e));
            && t.pay == P.Step(s.pay, e) && t.phones == s.phones && t.projects == s.projects && t.invites == s.invites
            && forall u, plan :: (u in t.held && plan in t.held[u]) <==>
                 || (u in s.held && plan in s.held[u])
                 || (u in t.pay.subs && t.pay.subs[u].plan == plan)
  {
    hide P.Step;
  }

  // ----- invitations -----

  /** The commits of an invitation for a new phone number; it lasts seven days. */
  lemma InvitationRows(s: State, id: InviteId, project: ProjectId, phone: Phone, role: Role)
    ensures Step(s, CheckInvite(project, phone)) ==
            if RoomForMember(s, project, phone) then Ensure(s, s.projects[project].owner) else s
    ensures Step(s, RevokeInvites(project, phone)) == s.(invites := Closed(s, project, phone))
    ensures Step(s, InsertInvite(id, project, phone, role)) ==
            if id !in s.invites && project in s.projects && role != Owner
            then s.(invites := s.invites[id := Invite(project, phone, role, s.pay.clock + 604_800_000_000, false, false)]) else s
  {
    hide MayAdd, Ensure, RoomForMember;
    ChecksInNumbers(s, 0, project, phone);
  }
}
