/** Plan limits: every path by which an owner's projects become active or a project gains members.

    A step is one committed transaction, except that inviting a new phone number takes three: the
    capacity check, closing earlier invitations and inserting the new one.  `held` is history: the
    plans each user's subscription has had. */
module PlanCapacity {
  import opened Options
  import opened Calendar
  import P = Payments

  type UserId = P.UserId
  type ProjectId = nat
  type InviteId = nat
  type Phone = nat

  datatype Role = Owner | Manager | Worker | Viewer

  type Members = map<UserId, Role>

  datatype Project = Project(owner: UserId, active: bool, members: Members)

  datatype Invite = Invite(project: ProjectId, phone: Phone, role: Role, expires: Instant, accepted: bool, revoked: bool)

  type Projects = map<ProjectId, Project>
  type Invites = map<InviteId, Invite>
  type Held = map<UserId, set<P.Plan>>

  datatype State = State(pay: P.State, held: Held, phones: map<UserId, Phone>, projects: Projects, invites: Invites)

  function MaxProjects(plan: P.Plan): nat {
    match plan case Trial => 1 case Standard => 5 case Max => 20
  }

  function MaxMembers(plan: P.Plan): nat {
    match plan case Trial => 0 case Standard => 5 case Max => 20
  }

  function MostProjects(plans: set<P.Plan>): nat {
    if P.Max in plans then 20 else if P.Standard in plans then 5 else if P.Trial in plans then 1 else 0
  }

  function MostMembers(plans: set<P.Plan>): nat {
    if P.Max in plans then 20 else if P.Standard in plans then 5 else 0
  }

  function HeldBy(held: Held, user: UserId): set<P.Plan> {
    if user in held then held[user] else {}
  }

  function Remembered(held: Held, subs: P.Subscriptions): Held {
    map u | u in held.Keys + subs.Keys :: HeldBy(held, u) + if u in subs then {subs[u].plan} else {}
  }

  function WithPay(s: State, pay: P.State): State {
    s.(pay := pay, held := Remembered(s.held, pay.subs))
  }

  // ----- counting -----

  function ActiveProjects(projects: Projects, owner: UserId): set<ProjectId> {
    set p | p in projects && projects[p].owner == owner && projects[p].active
  }

  function NonOwners(members: Members): set<UserId> {
    set u | u in members && members[u] != Owner
  }

  predicate Live(i: Invite, now: Instant) {
    !i.accepted && !i.revoked && i.expires > now
  }

  function Pending(invites: Invites, project: ProjectId, now: Instant): set<InviteId> {
    set i | i in invites && invites[i].project == project && Live(invites[i], now)
  }

  /** The pending invitations of a project for other phone numbers. */
  function PendingOthers(invites: Invites, project: ProjectId, phone: Phone, now: Instant): set<InviteId> {
    set i | i in invites && invites[i].project == project && Live(invites[i], now) && invites[i].phone != phone
  }

  predicate Paying(sub: P.Subscription) {
    sub.status == P.Trialing || sub.status == P.Active
  }

  /** `ensureProjectCreationAllowed`. */
  predicate MayActivate(s: State, owner: UserId) {
    var sub := P.Ensured(s.pay, owner);
    sub.Some? && Paying(sub.value) && |ActiveProjects(s.projects, owner)| < MaxProjects(sub.value.plan)
  }

  /** `ensureProjectMemberCapacity`. */
  predicate MayAdd(s: State, project: ProjectId, phone: Phone) {
    && project in s.projects
    && var sub := P.Ensured(s.pay, s.projects[project].owner);
       sub.Some? && Paying(sub.value)
       && |NonOwners(s.projects[project].members)| + |PendingOthers(s.invites, project, phone, s.pay.clock)|
          < MaxMembers(sub.value.plan)
  }

  /** The subscription row that both checks refresh and lock. */
  function Ensure(s: State, user: UserId): State {
    WithPay(s, P.EnsureSubscription(s.pay, user))
  }

  // ----- steps -----

  function Revoked(invites: Invites, project: ProjectId, phone: Phone): Invites {
    map i | i in invites ::
      if invites[i].project == project && invites[i].phone == phone && !invites[i].accepted
      then invites[i].(revoked := true) else invites[i]
  }

  function WithMember(p: Project, user: UserId, role: Role): Project {
    p.(members := p.members[user := role])
  }

  predicate Assignable(role: Role) {
    role != Owner
  }

  datatype Event =
    | Pay(e: P.Event)
    | SetPhone(user: UserId, phone: Phone)
    | Create(project: ProjectId, owner: UserId)
    | Restore(project: ProjectId)
    | Archive(project: ProjectId)
    | CheckInvite(project: ProjectId, phone: Phone)
    | RevokeInvites(project: ProjectId, phone: Phone)
    | InsertInvite(invite: InviteId, project: ProjectId, phone: Phone, role: Role)
    | InviteAtOnce(invite: InviteId, project: ProjectId, phone: Phone, role: Role)
    | AddMember(project: ProjectId, user: UserId, role: Role)
    | AcceptToken(invite: InviteId, user: UserId)
    | AcceptAtLogin(invite: InviteId, user: UserId)
    | SetRole(project: ProjectId, user: UserId, role: Role)
    | Remove(project: ProjectId, user: UserId)

  function Inserted(s: State, id: InviteId, project: ProjectId, phone: Phone, role: Role): State {
    if id in s.invites || project !in s.projects || !Assignable(role) then s
    else s.(invites := s.invites[id := Invite(project, phone, role, s.pay.clock + Days(7), false, false)])
  }

  function Joined(s: State, project: ProjectId, user: UserId, role: Role): State
    requires project in s.projects
  {
    Ensure(s, s.projects[project].owner).(projects := s.projects[project := WithMember(s.projects[project], user, role)])
  }

  /** An invitation that `user` may accept now. */
  predicate Addressed(s: State, invite: InviteId, user: UserId) {
    && invite in s.invites && Live(s.invites[invite], s.pay.clock)
    && user in s.phones && s.phones[user] == s.invites[invite].phone
    && s.invites[invite].project in s.projects
  }

  function Accepted(s: State, invite: InviteId): State
    requires invite in s.invites
  {
    s.(invites := s.invites[invite := s.invites[invite].(accepted := true)])
  }

  ghost function Step(s: State, e: Event): State {
    match e
    case Pay(e) => WithPay(s, P.Step(s.pay, e))
    case SetPhone(user, phone) => s.(phones := s.phones[user := phone])
    case Create(project, owner) =>
      if project !in s.projects && MayActivate(s, owner)
      then Ensure(s, owner).(projects := s.projects[project := Project(owner, true, map[owner := Owner])]) else s
    case Restore(project) =>
      if project in s.projects && !s.projects[project].active && MayActivate(s, s.projects[project].owner)
      then Ensure(s, s.projects[project].owner).(projects := s.projects[project := s.projects[project].(active := true)])
      else s
    case Archive(project) =>
      if project in s.projects then s.(projects := s.projects[project := s.projects[project].(active := false)]) else s
    case CheckInvite(project, phone) =>
      if MayAdd(s, project, phone) then Ensure(s, s.projects[project].owner) else s
    case RevokeInvites(project, phone) => s.(invites := Revoked(s.invites, project, phone))
    case InsertInvite(id, project, phone, role) => Inserted(s, id, project, phone, role)
    case InviteAtOnce(id, project, phone, role) =>
      if MayAdd(s, project, phone)
      then Inserted(Ensure(s, s.projects[project].owner).(invites := Revoked(s.invites, project, phone)), id, project, phone, role)
      else s
    case AddMember(project, user, role) =>
      if project in s.projects && user in s.phones && Assignable(role) && user !in s.projects[project].members
         && MayAdd(s, project, s.phones[user])
      then Joined(s, project, user, role).(invites := Revoked(s.invites, project, s.phones[user])) else s
    case AcceptToken(id, user) =>
      if Addressed(s, id, user) && MayAdd(s, s.invites[id].project, s.invites[id].phone)
      then Accepted(Joined(s, s.invites[id].project, user, s.invites[id].role), id) else s
    case AcceptAtLogin(id, user) => AcceptedAtLogin(s, id, user)
    case SetRole(project, user, role) =>
      if project in s.projects && user in s.projects[project].members && s.projects[project].members[user] != Owner && Assignable(role)
      then s.(projects := s.projects[project := WithMember(s.projects[project], user, role)]) else s
    case Remove(project, user) =>
      if project in s.projects && user in s.projects[project].members && s.projects[project].members[user] != Owner
      then s.(projects := s.projects[project := s.projects[project].(members := s.projects[project].members - {user})]) else s
  }

  /** One round of the loop in `VerifySMSCode`: a refused invitation is skipped, and somebody who
      is a member already keeps the role. */
  function AcceptedAtLogin(s: State, id: InviteId, user: UserId): State {
    if !Addressed(s, id, user) then s
    else
      var project := s.invites[id].project;
      if !MayAdd(s, project, s.invites[id].phone) then Ensure(s, s.projects[project].owner)
      else if user in s.projects[project].members then Accepted(Ensure(s, s.projects[project].owner), id)
      else Accepted(Joined(s, project, user, s.invites[id].role), id)
  }

  ghost function Run(s: State, events: seq<Event>): State {
    if events == [] then s else Step(Run(s, events[..|events| - 1]), events[|events| - 1])
  }

  /** No project yet; subscriptions may be anything. */
  predicate Initial(s: State) {
    s.projects == map[] && s.invites == map[] && s.held == Remembered(map[], s.pay.subs)
  }
}
