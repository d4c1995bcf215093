/** Who can do what to public.events: role membership as a graph, and the query that guards restricted grants. */
module Roles {

  type Role = string

  datatype Attribute = Superuser | CreateRole | CreateDb | BypassRls | Replication
  datatype Privilege = Select | Insert | Update | Delete | Truncate | Trigger
  datatype Column = Id | ReceivedAt | EventType | Actor | Content | Refs

  datatype RoleInfo = RoleInfo(canLogin: bool, attributes: set<Attribute>)

  /** `member` belongs to `group`, inheriting its privileges, able to SET ROLE to it, both or neither. */
  datatype Membership = Membership(member: Role, group: Role, inherits: bool, sets: bool)

  datatype Grantee = Public | ToRole(role: Role)
  datatype Grant =
    | OnTable(grantee: Grantee, privilege: Privilege)
    | OnColumn(grantee: Grantee, privilege: Privilege, column: Column)
    | OnSchema(grantee: Grantee)

  datatype Authority = Authority(roles: map<Role, RoleInfo>, members: set<Membership>, grants: set<Grant>)

  // ---- reachability ----

  type Edge = (Role, Role)

  function InheritEdges(a: Authority): set<Edge> {
    set m | m in a.members && m.inherits :: (m.member, m.group)
  }

  function SetEdges(a: Authority): set<Edge> {
    set m | m in a.members && m.sets :: (m.member, m.group)
  }

  ghost predicate Chain(edges: set<Edge>, p: seq<Role>) {
    |p| > 0 && forall k :: 0 <= k < |p| - 1 ==> (p[k], p[k + 1]) in edges
  }

  ghost predicate ChainBetween(edges: set<Edge>, p: seq<Role>, x: Role, y: Role) {
    Chain(edges, p) && p[0] == x && p[|p| - 1] == y
  }

  ghost predicate Reaches(edges: set<Edge>, x: Role, y: Role) {
    exists p :: ChainBetween(edges, p, x, y)
  }

  lemma ReachesSelf(edges: set<Edge>, x: Role)
    ensures Reaches(edges, x, x)
  {
    assert ChainBetween(edges, [x], x, x);
  }

  lemma ReachesTransitive(edges: set<Edge>, x: Role, y: Role, z: Role)
    requires Reaches(edges, x, y) && Reaches(edges, y, z)
    ensures Reaches(edges, x, z)
  {
    var p :| ChainBetween(edges, p, x, y);
    var q :| ChainBetween(edges, q, y, z);
    var r := p + q[1..];
    forall k | 0 <= k < |r| - 1
      ensures (r[k], r[k + 1]) in edges
    {
      if k >= |p| - 1 {
        assert r[k] == q[k - |p| + 1] && r[k + 1] == q[k - |p| + 2];
      }
    }
    assert ChainBetween(edges, r, x, z);
  }

  // ---- PostgreSQL's privilege inquiries ----

  predicate HasAttribute(a: Authority, r: Role, attribute: Attribute) {
    r in a.roles && attribute in a.roles[r].attributes
  }

  /** pg_has_role(x, y, 'USAGE') and pg_has_role(x, y, 'SET'); a superuser has every role. */
  ghost predicate HasUsage(a: Authority, x: Role, y: Role) {
    HasAttribute(a, x, Superuser) || Reaches(InheritEdges(a), x, y)
  }

  ghost predicate HasSet(a: Authority, x: Role, y: Role) {
    HasAttribute(a, x, Superuser) || Reaches(SetEdges(a), x, y)
  }

  ghost predicate Applies(a: Authority, grantee: Grantee, x: Role) {
    grantee.Public? || Reaches(InheritEdges(a), x, grantee.role)
  }

  /** has_table_privilege. */
  ghost predicate HasTable(a: Authority, x: Role, privilege: Privilege) {
    || HasAttribute(a, x, Superuser)
    || exists grantee :: OnTable(grantee, privilege) in a.grants && Applies(a, grantee, x)
  }

  /** has_column_privilege. */
  ghost predicate HasColumn(a: Authority, x: Role, privilege: Privilege, column: Column) {
    || HasTable(a, x, privilege)
    || exists grantee :: OnColumn(grantee, privilege, column) in a.grants && Applies(a, grantee, x)
  }

  /** has_any_column_privilege. */
  ghost predicate HasAnyColumn(a: Authority, x: Role, privilege: Privilege) {
    exists column :: HasColumn(a, x, privilege, column)
  }

  /** has_schema_privilege, for USAGE. */
  ghost predicate HasSchema(a: Authority, x: Role) {
    || HasAttribute(a, x, Superuser)
    || exists grantee :: OnSchema(grantee) in a.grants && Applies(a, grantee, x)
  }

  // ---- the eligibility query ----

  const FORBIDDEN := {Update, Delete, Truncate, Trigger}
  const PROTECTED := {Id, ReceivedAt, Actor}

  datatype Reason =
    | IsPrivileged(role: Role, attribute: Attribute)
    | Holds(role: Role, privilege: Privilege)
    | InsertsProtected(role: Role, column: Column)

  /** The roles the query looks at: the role, those it inherits from, those it can SET ROLE to. */
  ghost predicate Reachable(a: Authority, role: Role, r: Role) {
    r in a.roles && (r == role || HasUsage(a, role, r) || HasSet(a, role, r))
  }

  /** The rows of the query. */
  ghost predicate IsReason(a: Authority, role: Role, extra: set<Privilege>, reason: Reason) {
    && Reachable(a, role, reason.role)
    && match reason
       case IsPrivileged(r, attribute) => HasAttribute(a, r, attribute)
       case Holds(r, p) =>
         || (p in FORBIDDEN && (HasTable(a, r, p) || (p == Update && HasAnyColumn(a, r, p))))
         || (p in extra && HasAnyColumn(a, r, p))
       case InsertsProtected(r, c) => c in PROTECTED && HasColumn(a, r, Insert, c)
  }

  ghost predicate Eligible(a: Authority, role: Role, extra: set<Privilege>) {
    forall reason :: !IsReason(a, role, extra, reason)
  }

  ghost predicate Provisionable(a: Authority, role: Role, extra: set<Privilege>) {
    role in a.roles && a.roles[role].canLogin && Eligible(a, role, extra)
  }

  // ---- what a session can do ----

  /** A session may act as its login, or as any role it can SET ROLE to. */
  ghost predicate MayActAs(a: Authority, login: Role, x: Role) {
    x in a.roles && (x == login || HasSet(a, login, x))
  }

  /** What no writer may hold while acting as x. */
  ghost predicate Unrestrained(a: Authority, x: Role) {
    || (exists attribute :: HasAttribute(a, x, attribute))
    || (exists p :: p in FORBIDDEN && HasTable(a, x, p))
    || HasAnyColumn(a, x, Update)
    || (exists c :: c in PROTECTED && HasColumn(a, x, Insert, c))
  }

  ghost predicate Restricted(a: Authority, login: Role) {
    forall x :: MayActAs(a, login, x) ==> !Unrestrained(a, x)
  }

  // ---- grants ----

  function WriterGrants(role: Role): set<Grant> {
    {OnSchema(ToRole(role)), OnColumn(ToRole(role), Insert, EventType), OnColumn(ToRole(role), Insert, Content),
     OnColumn(ToRole(role), Insert, Refs), OnTable(ToRole(role), Select)}
  }

  function ReaderGrants(role: Role): set<Grant> {
    {OnSchema(ToRole(role)), OnTable(ToRole(role), Select)}
  }

  function WithGrants(a: Authority, grants: set<Grant>): Authority {
    a.(grants := a.grants + grants)
  }

  // ---- exactness of the query ----

  /** Inherited roles only add privileges a session already has as itself; their attributes are not inherited. */
  lemma InheritedPrivileges(a: Authority, x: Role, y: Role)
    requires Reaches(InheritEdges(a), x, y) && !HasAttribute(a, y, Superuser)
    ensures forall p :: HasTable(a, y, p) ==> HasTable(a, x, p)
    ensures forall p, c :: HasColumn(a, y, p, c) ==> HasColumn(a, x, p, c)
  {
    forall grantee: Grantee | Applies(a, grantee, y)
      ensures Applies(a, grantee, x)
    {
      if grantee.ToRole? {
        ReachesTransitive(InheritEdges(a), x, y, grantee.role);
      }
    }
  }

  lemma EligibleMeansRestrained(a: Authority, role: Role, r: Role)
    requires Eligible(a, role, {}) && Reachable(a, role, r)
    ensures !Unrestrained(a, r)
  {
    if attribute :| HasAttribute(a, r, attribute) {
      assert IsReason(a, role, {}, IsPrivileged(r, attribute));
    }
    if p :| p in FORBIDDEN && HasTable(a, r, p) {
      assert IsReason(a, role, {}, Holds(r, p));
    }
    if HasAnyColumn(a, r, Update) {
      assert IsReason(a, role, {}, Holds(r, Update));
    }
    if c :| c in PROTECTED && HasColumn(a, r, Insert, c) {
      assert IsReason(a, role, {}, InsertsProtected(r, c));
    }
  }

  ghost predicate InheritsPrivileged(a: Authority, role: Role) {
    exists r, attribute :: HasUsage(a, role, r) && HasAttribute(a, r, attribute)
  }

  /**
   For an existing role, the query finds no reason exactly when every role a session of it may act as is
   restrained, and no role it merely inherits from carries a privileged attribute (which inheriting would not
   confer: there the query is stricter than it must be).
   */
  lemma EligibleIff(a: Authority, role: Role)
    requires role in a.roles
    ensures Eligible(a, role, {}) <==> Restricted(a, role) && !InheritsPrivileged(a, role)
  {
    ReachesSelf(InheritEdges(a), role);
    if Eligible(a, role, {}) {
      forall x | MayActAs(a, role, x)
        ensures !Unrestrained(a, x)
      {
        EligibleMeansRestrained(a, role, x);
      }
      forall r, attribute | HasUsage(a, role, r)
        ensures !HasAttribute(a, r, attribute)
      {
        assert !IsReason(a, role, {}, IsPrivileged(r, attribute));
      }
    }
    if Restricted(a, role) && !InheritsPrivileged(a, role) {
      forall reason
        ensures !IsReason(a, role, {}, reason)
      {
        RestrictedHasNoReason(a, role, reason);
      }
    }
  }

  lemma RestrictedHasNoReason(a: Authority, role: Role, reason: Reason)
    requires role in a.roles && Restricted(a, role) && !InheritsPrivileged(a, role)
    ensures !IsReason(a, role, {}, reason)
  {
    var r := reason.role;
    if Reachable(a, role, r) {
      assert MayActAs(a, role, role) && !Unrestrained(a, role);
      assert !HasAttribute(a, role, Superuser);
      if !MayActAs(a, role, r) {
        assert HasUsage(a, role, r);
        assert !HasAttribute(a, r, Superuser);
        InheritedPrivileges(a, role, r);
      }
    }
  }

  // ---- provisioning ----

  lemma GrantsKeepGraph(a: Authority, grants: set<Grant>)
    ensures InheritEdges(WithGrants(a, grants)) == InheritEdges(a)
    ensures SetEdges(WithGrants(a, grants)) == SetEdges(a)
  {
  }

  /** Neither kind of grant gives anyone anything the query looks for in a writer. */
  lemma GrantsAddNoReason(a: Authority, grants: set<Grant>, target: Role, role: Role)
    requires grants == WriterGrants(target) || grants == ReaderGrants(target)
    requires Eligible(a, role, {})
    ensures Eligible(WithGrants(a, grants), role, {})
  {
    var b := WithGrants(a, grants);
    GrantsKeepGraph(a, grants);
    forall reason
      ensures !IsReason(b, role, {}, reason)
    {
      assert !IsReason(a, role, {}, reason);
      SameForbidden(a, b, grants, target, reason.role);
    }
  }

  lemma SameForbidden(a: Authority, b: Authority, grants: set<Grant>, target: Role, r: Role)
    requires grants == WriterGrants(target) || grants == ReaderGrants(target)
    requires b == WithGrants(a, grants)
    ensures forall p :: p in FORBIDDEN ==> (HasTable(b, r, p) <==> HasTable(a, r, p))
    ensures HasAnyColumn(b, r, Update) <==> HasAnyColumn(a, r, Update)
    ensures forall c :: c in PROTECTED ==> (HasColumn(b, r, Insert, c) <==> HasColumn(a, r, Insert, c))
  {
    GrantsKeepGraph(a, grants);
    forall grantee: Grantee
      ensures Applies(b, grantee, r) <==> Applies(a, grantee, r)
    {
    }
    forall p | p in FORBIDDEN
      ensures HasTable(b, r, p) <==> HasTable(a, r, p)
      ensures forall c :: HasColumn(b, r, p, c) <==> HasColumn(a, r, p, c)
    {
    }
    assert HasTable(b, r, Insert) <==> HasTable(a, r, Insert);
    if HasAnyColumn(b, r, Update) {
      var c :| HasColumn(b, r, Update, c);
      assert HasColumn(a, r, Update, c);
    }
    if HasAnyColumn(a, r, Update) {
      var c :| HasColumn(a, r, Update, c);
      assert HasColumn(b, r, Update, c);
    }
  }

  // ---- what a provisioning gives, and to whom ----

  /** The privileges an INSERT of an event needs, and the row it returns. */
  ghost predicate CanAppend(a: Authority, x: Role) {
    && HasSchema(a, x) && HasTable(a, x, Select)
    && HasColumn(a, x, Insert, EventType) && HasColumn(a, x, Insert, Content) && HasColumn(a, x, Insert, Refs)
  }

  ghost predicate CanRead(a: Authority, x: Role) {
    HasSchema(a, x) && HasTable(a, x, Select)
  }

  /** From a to b, x has gained exactly USAGE, SELECT and INSERT on the given columns, if it gained anything. */
  ghost predicate Gains(a: Authority, b: Authority, x: Role, gains: bool, columns: set<Column>) {
    && (HasSchema(b, x) <==> HasSchema(a, x) || gains)
    && (forall p :: HasTable(b, x, p) <==> HasTable(a, x, p) || (gains && p == Select))
    && (forall p, c :: HasColumn(b, x, p, c) <==> HasColumn(a, x, p, c) || (gains && (p == Select || (p == Insert && c in columns))))
    && (forall attribute :: HasAttribute(b, x, attribute) <==> HasAttribute(a, x, attribute))
  }

  lemma SameApplies(a: Authority, grants: set<Grant>, x: Role)
    ensures forall grantee :: Applies(WithGrants(a, grants), grantee, x) <==> Applies(a, grantee, x)
    ensures forall grant :: grant in WithGrants(a, grants).grants <==> grant in a.grants || grant in grants
  {
    GrantsKeepGraph(a, grants);
  }

  /**
   Exactly the roles that inherit from a new writer, itself among them, gain what appending needs, and nothing else;
   all others hold what they held.
   */
  lemma WriterGains(a: Authority, role: Role, x: Role)
    ensures var b := WithGrants(a, WriterGrants(role));
      Gains(a, b, x, Reaches(InheritEdges(a), x, role), {EventType, Content, Refs})
    ensures CanAppend(WithGrants(a, WriterGrants(role)), role)
  {
    ReachesSelf(InheritEdges(a), role);
    WriterGainsIf(a, role, role);
    if Reaches(InheritEdges(a), x, role) {
      WriterGainsIf(a, role, x);
    }
    WriterGainsOnlyIf(a, role, x);
  }

  lemma WriterGainsIf(a: Authority, role: Role, x: Role)
    requires Reaches(InheritEdges(a), x, role)
    ensures CanAppend(WithGrants(a, WriterGrants(role)), x)
  {
    SameApplies(a, WriterGrants(role), x);
    var b := WithGrants(a, WriterGrants(role));
    assert Applies(b, ToRole(role), x);
    assert OnSchema(ToRole(role)) in b.grants && OnTable(ToRole(role), Select) in b.grants;
    assert OnColumn(ToRole(role), Insert, EventType) in b.grants && OnColumn(ToRole(role), Insert, Content) in b.grants;
    assert OnColumn(ToRole(role), Insert, Refs) in b.grants;
  }

  lemma WriterGainsOnlyIf(a: Authority, role: Role, x: Role)
    requires Reaches(InheritEdges(a), x, role) ==> CanAppend(WithGrants(a, WriterGrants(role)), x)
    ensures Gains(a, WithGrants(a, WriterGrants(role)), x, Reaches(InheritEdges(a), x, role), {EventType, Content, Refs})
  {
    SameApplies(a, WriterGrants(role), x);
  }

  /** For a reader: USAGE and SELECT, to exactly the roles that inherit from it. */
  lemma ReaderGains(a: Authority, role: Role, x: Role)
    ensures var b := WithGrants(a, ReaderGrants(role)); Gains(a, b, x, Reaches(InheritEdges(a), x, role), {})
    ensures CanRead(WithGrants(a, ReaderGrants(role)), role)
  {
    ReachesSelf(InheritEdges(a), role);
    ReaderGainsIf(a, role, role);
    if Reaches(InheritEdges(a), x, role) {
      ReaderGainsIf(a, role, x);
    }
    SameApplies(a, ReaderGrants(role), x);
  }

  lemma ReaderGainsIf(a: Authority, role: Role, x: Role)
    requires Reaches(InheritEdges(a), x, role)
    ensures CanRead(WithGrants(a, ReaderGrants(role)), x)
  {
    SameApplies(a, ReaderGrants(role), x);
    var b := WithGrants(a, ReaderGrants(role));
    assert Applies(b, ToRole(role), x);
    assert OnSchema(ToRole(role)) in b.grants && OnTable(ToRole(role), Select) in b.grants;
  }

  /** If b is not a: exactly the roles that inherit from the role gain, and exactly those privileges. */
  ghost predicate OnlyGains(a: Authority, b: Authority, role: Role, columns: set<Column>) {
    forall x :: Gains(a, b, x, InheritsNow(a, b, role, x), columns)
  }

  ghost predicate InheritsNow(a: Authority, b: Authority, role: Role, x: Role) {
    a != b && Reaches(InheritEdges(a), x, role)
  }

  lemma WriterGot(a: Authority, b: Authority, role: Role)
    requires b == a || b == WithGrants(a, WriterGrants(role))
    ensures OnlyGains(a, b, role, {EventType, Content, Refs})
    ensures b == WithGrants(a, WriterGrants(role)) ==> CanAppend(b, role)
  {
    WriterGains(a, role, role);
    forall x
      ensures Gains(a, b, x, InheritsNow(a, b, role, x), {EventType, Content, Refs})
    {
      WriterGains(a, role, x);
    }
  }

  lemma ReaderGot(a: Authority, b: Authority, role: Role)
    requires b == a || b == WithGrants(a, ReaderGrants(role))
    ensures OnlyGains(a, b, role, {})
    ensures b == WithGrants(a, ReaderGrants(role)) ==> CanRead(b, role)
  {
    ReaderGains(a, role, role);
    forall x
      ensures Gains(a, b, x, InheritsNow(a, b, role, x), {})
    {
      ReaderGains(a, role, x);
    }
  }

  /** No privileged attribute, nothing to alter a row with, and none of the columns that the database fills in. */
  ghost predicate Harmless(a: Authority, x: Role) {
    && (forall attribute :: !HasAttribute(a, x, attribute))
    && !HasTable(a, x, Update) && !HasTable(a, x, Delete) && !HasTable(a, x, Truncate) && !HasTable(a, x, Trigger)
    && (forall c :: !HasColumn(a, x, Update, c))
    && !HasColumn(a, x, Insert, Id) && !HasColumn(a, x, Insert, ReceivedAt) && !HasColumn(a, x, Insert, Actor)
  }

  lemma RestrictedIff(a: Authority, login: Role)
    ensures Restricted(a, login) <==> forall x :: MayActAs(a, login, x) ==> Harmless(a, x)
  {
    forall x
      ensures !Unrestrained(a, x) <==> Harmless(a, x)
    {
      assert forall p :: p in FORBIDDEN <==> p == Update || p == Delete || p == Truncate || p == Trigger;
      assert forall c :: c in PROTECTED <==> c == Id || c == ReceivedAt || c == Actor;
    }
  }

  /** The role closure: an accepted writer is restricted whichever roles it can reach, once it has its grants. */
  lemma WriterIsRestricted(a: Authority, role: Role)
    requires Provisionable(a, role, {})
    ensures Provisionable(WithGrants(a, WriterGrants(role)), role, {})
    ensures var b := WithGrants(a, WriterGrants(role));
      Restricted(b, role) && forall x :: MayActAs(b, role, x) ==> Harmless(b, x)
  {
    GrantsAddNoReason(a, WriterGrants(role), role, role);
    EligibleIff(WithGrants(a, WriterGrants(role)), role);
    RestrictedIff(WithGrants(a, WriterGrants(role)), role);
  }

  // ---- sequences of provisionings ----

  datatype Request = ProvisionWriter(role: Role) | ProvisionReader(role: Role)

  function ExtraOf(request: Request): set<Privilege> {
    if request.ProvisionWriter? then {} else {Insert}
  }

  function GrantsOf(request: Request): set<Grant> {
    if request.ProvisionWriter? then WriterGrants(request.role) else ReaderGrants(request.role)
  }

  /** One call: refused, or failed before its commit, it changes nothing; otherwise it was provisionable. */
  ghost predicate Provisioned(a: Authority, request: Request, accepted: bool, b: Authority) {
    if accepted
    then request.role != "" && Provisionable(a, request.role, ExtraOf(request)) && b == WithGrants(a, GrantsOf(request))
    else b == a
  }

  ghost predicate IsProvisioning(states: seq<Authority>, requests: seq<Request>, accepted: seq<bool>) {
    && |states| == |requests| + 1 && |accepted| == |requests|
    && forall k :: 0 <= k < |requests| ==> Provisioned(states[k], requests[k], accepted[k], states[k + 1])
  }

  /** No provisioning takes a privilege away. */
  lemma AppendStays(a: Authority, request: Request, x: Role)
    requires CanAppend(a, x)
    ensures CanAppend(WithGrants(a, GrantsOf(request)), x)
  {
    match request
    case ProvisionWriter(role) => WriterGains(a, role, x);
    case ProvisionReader(role) => ReaderGains(a, role, x);
  }

  /** Whatever is provisioned later, in any order, an accepted writer can append, and stays eligible and restricted. */
  lemma {:induction false} WritersStayRestricted(states: seq<Authority>, requests: seq<Request>, accepted: seq<bool>, k: nat, j: nat)
    requires IsProvisioning(states, requests, accepted) && k < j <= |requests|
    requires requests[k].ProvisionWriter? && accepted[k]
    ensures Provisionable(states[j], requests[k].role, {}) && Restricted(states[j], requests[k].role)
    ensures forall x :: MayActAs(states[j], requests[k].role, x) ==> Harmless(states[j], x)
    ensures CanAppend(states[j], requests[k].role)
  {
    assert Provisioned(states[j - 1], requests[j - 1], accepted[j - 1], states[j]);
    if k + 1 == j {
      WriterIsRestricted(states[k], requests[k].role);
      WriterGains(states[k], requests[k].role, requests[k].role);
    } else {
      WritersStayRestricted(states, requests, accepted, k, j - 1);
      if accepted[j - 1] {
        GrantsAddNoReason(states[j - 1], GrantsOf(requests[j - 1]), requests[j - 1].role, requests[k].role);
        AppendStays(states[j - 1], requests[j - 1], requests[k].role);
      }
      EligibleIff(states[j], requests[k].role);
      RestrictedIff(states[j], requests[k].role);
    }
  }

  /** Provisioning an accepted writer, or reader, again is accepted and changes nothing. */
  lemma ReprovisioningIsIdempotent(a: Authority, request: Request)
    requires Provisionable(a, request.role, ExtraOf(request))
    ensures var b := WithGrants(a, GrantsOf(request));
      Provisionable(b, request.role, ExtraOf(request)) && WithGrants(b, GrantsOf(request)) == b
  {
    match request
    case ProvisionWriter(role) => WriterIsRestricted(a, role);
    case ProvisionReader(role) => ReaderGrantsKeepReaders(a, role, role);
  }

  // ---- readers ----

  ghost predicate ReachesGrantee(a: Authority, reader: Role, target: Role) {
    exists r :: Reachable(a, reader, r) && Reaches(InheritEdges(a), r, target)
  }

  /**
   A reader has no such guarantee: provisioning a writer keeps an accepted reader eligible exactly when no role
   the reader reaches inherits from the new writer.
   */
  lemma ReaderStaysIff(a: Authority, reader: Role, writer: Role)
    requires Provisionable(a, reader, {Insert})
    ensures Provisionable(WithGrants(a, WriterGrants(writer)), reader, {Insert}) <==> !ReachesGrantee(a, reader, writer)
  {
    var b := WithGrants(a, WriterGrants(writer));
    GrantsKeepGraph(a, WriterGrants(writer));
    if ReachesGrantee(a, reader, writer) {
      var r :| Reachable(a, reader, r) && Reaches(InheritEdges(a), r, writer);
      assert OnColumn(ToRole(writer), Insert, Content) in b.grants && Applies(b, ToRole(writer), r);
      assert HasColumn(b, r, Insert, Content);
      assert IsReason(b, reader, {Insert}, Holds(r, Insert));
    } else {
      forall reason
        ensures !IsReason(b, reader, {Insert}, reason)
      {
        assert !IsReason(a, reader, {Insert}, reason);
        SameForbidden(a, b, WriterGrants(writer), writer, reason.role);
        if Reachable(a, reader, reason.role) {
          SameInsert(a, b, writer, reason.role);
        }
      }
    }
  }

  /** Grants only ever add reasons. */
  lemma ReasonsGrow(a: Authority, grants: set<Grant>, role: Role, extra: set<Privilege>)
    ensures Eligible(WithGrants(a, grants), role, extra) ==> Eligible(a, role, extra)
  {
    var b := WithGrants(a, grants);
    GrantsKeepGraph(a, grants);
    forall reason | IsReason(a, role, extra, reason)
      ensures IsReason(b, role, extra, reason)
    {
      var r := reason.role;
      forall grantee | Applies(a, grantee, r)
        ensures Applies(b, grantee, r)
      {
      }
      assert forall p :: HasTable(a, r, p) ==> HasTable(b, r, p);
      assert forall p, c :: HasColumn(a, r, p, c) ==> HasColumn(b, r, p, c);
      forall p | HasAnyColumn(a, r, p)
        ensures HasAnyColumn(b, r, p)
      {
        var c :| HasColumn(a, r, p, c);
        assert HasColumn(b, r, p, c);
      }
    }
  }

  /** Provisioning a reader takes no reader's eligibility away. */
  lemma ReaderGrantsKeepReaders(a: Authority, target: Role, reader: Role)
    ensures Eligible(WithGrants(a, ReaderGrants(target)), reader, {Insert}) <==> Eligible(a, reader, {Insert})
  {
    var b := WithGrants(a, ReaderGrants(target));
    GrantsKeepGraph(a, ReaderGrants(target));
    ReasonsGrow(a, ReaderGrants(target), reader, {Insert});
    if Eligible(a, reader, {Insert}) {
      forall reason
        ensures !IsReason(b, reader, {Insert}, reason)
      {
        assert !IsReason(a, reader, {Insert}, reason);
        SameForbidden(a, b, ReaderGrants(target), target, reason.role);
        forall c
          ensures HasColumn(b, reason.role, Insert, c) ==> HasColumn(a, reason.role, Insert, c)
        {
        }
      }
    }
  }

  /** Nobody made a writer between steps k and j whom the reader reaches. */
  ghost predicate NoWriterReached(a: Authority, reader: Role, requests: seq<Request>, accepted: seq<bool>, k: nat, j: nat)
    requires k <= j <= |requests| == |accepted|
  {
    forall m :: k <= m < j && accepted[m] && requests[m].ProvisionWriter? ==> !ReachesGrantee(a, reader, requests[m].role)
  }

  lemma SameReach(a: Authority, grants: set<Grant>, reader: Role, target: Role)
    ensures ReachesGrantee(WithGrants(a, grants), reader, target) <==> ReachesGrantee(a, reader, target)
  {
    GrantsKeepGraph(a, grants);
    var b := WithGrants(a, grants);
    assert forall r :: Reachable(b, reader, r) <==> Reachable(a, reader, r);
  }

  lemma {:induction false} ReachesSame(states: seq<Authority>, requests: seq<Request>, accepted: seq<bool>, k: nat, j: nat, reader: Role, target: Role)
    requires IsProvisioning(states, requests, accepted) && k <= j <= |requests|
    ensures ReachesGrantee(states[j], reader, target) <==> ReachesGrantee(states[k], reader, target)
  {
    if k < j {
      ReachesSame(states, requests, accepted, k, j - 1, reader, target);
      if accepted[j - 1] {
        SameReach(states[j - 1], GrantsOf(requests[j - 1]), reader, target);
      }
    }
  }

  lemma ReaderStep(a: Authority, request: Request, reader: Role)
    requires reader in a.roles && a.roles[reader].canLogin
    ensures var b := WithGrants(a, GrantsOf(request));
      Provisionable(b, reader, {Insert}) <==>
        Provisionable(a, reader, {Insert}) && (request.ProvisionWriter? ==> !ReachesGrantee(a, reader, request.role))
  {
    ReasonsGrow(a, GrantsOf(request), reader, {Insert});
    if request.ProvisionReader? {
      ReaderGrantsKeepReaders(a, request.role, reader);
    } else if Provisionable(a, reader, {Insert}) {
      ReaderStaysIff(a, reader, request.role);
    }
  }

  /**
   Over any sequence of provisionings, an accepted reader is still eligible exactly if no role that was made a writer
   since is one it reaches.
   */
  lemma {:induction false} ReaderStaysOverIff(states: seq<Authority>, requests: seq<Request>, accepted: seq<bool>, k: nat, j: nat)
    requires IsProvisioning(states, requests, accepted) && k < j <= |requests|
    requires requests[k].ProvisionReader? && accepted[k]
    ensures var reader := requests[k].role;
      Provisionable(states[j], reader, {Insert}) <==> NoWriterReached(states[k], reader, requests, accepted, k + 1, j)
    ensures requests[k].role in states[j].roles && states[j].roles[requests[k].role].canLogin
  {
    var reader := requests[k].role;
    assert Provisioned(states[j - 1], requests[j - 1], accepted[j - 1], states[j]);
    if k + 1 == j {
      ReaderStep(states[k], requests[k], reader);
    } else {
      ReaderStaysOverIff(states, requests, accepted, k, j - 1);
      if accepted[j - 1] {
        ReaderStep(states[j - 1], requests[j - 1], reader);
        ReachesSame(states, requests, accepted, k, j - 1, reader, requests[j - 1].role);
      }
    }
  }

  /** For a reader the query asks one thing more: that no role a session of it may act as can insert into any column. */
  lemma ReaderEligibleIff(a: Authority, reader: Role)
    requires reader in a.roles
    ensures Eligible(a, reader, {Insert}) <==>
              && Restricted(a, reader) && !InheritsPrivileged(a, reader)
              && forall x, c :: MayActAs(a, reader, x) ==> !HasColumn(a, x, Insert, c)
  {
    EligibleIff(a, reader);
    if Eligible(a, reader, {Insert}) {
      forall reason
        ensures !IsReason(a, reader, {}, reason)
      {
        assert !IsReason(a, reader, {Insert}, reason);
      }
      forall x, c | MayActAs(a, reader, x)
        ensures !HasColumn(a, x, Insert, c)
      {
        assert !IsReason(a, reader, {Insert}, Holds(x, Insert));
      }
    }
    if Eligible(a, reader, {}) && (forall x, c :: MayActAs(a, reader, x) ==> !HasColumn(a, x, Insert, c)) {
      forall reason
        ensures !IsReason(a, reader, {Insert}, reason)
      {
        assert !IsReason(a, reader, {}, reason);
        NoInsertReached(a, reader, reason.role);
      }
    }
  }

  /** Nor can a role that it only inherits from. */
  lemma NoInsertReached(a: Authority, reader: Role, r: Role)
    requires reader in a.roles && Eligible(a, reader, {})
    requires forall x, c :: MayActAs(a, reader, x) ==> !HasColumn(a, x, Insert, c)
    ensures Reachable(a, reader, r) ==> !HasAnyColumn(a, r, Insert)
  {
    if Reachable(a, reader, r) && !MayActAs(a, reader, r) {
      ReachesSelf(InheritEdges(a), reader);
      EligibleIff(a, reader);
      EligibleMeansRestrained(a, reader, reader);
      EligibleMeansRestrained(a, reader, r);
      assert MayActAs(a, reader, reader) && !HasAttribute(a, r, Superuser) && !HasAttribute(a, reader, Superuser);
      InheritedPrivileges(a, reader, r);
    }
  }

  /** Once granted, an accepted reader can neither insert nor mutate, whichever role it acts as. */
  lemma ReaderIsReadOnly(a: Authority, reader: Role)
    requires Provisionable(a, reader, {Insert})
    ensures var b := WithGrants(a, ReaderGrants(reader));
      Restricted(b, reader) && forall x :: MayActAs(b, reader, x) ==> Harmless(b, x) && !HasAnyColumn(b, x, Insert)
  {
    var b := WithGrants(a, ReaderGrants(reader));
    GrantsKeepGraph(a, ReaderGrants(reader));
    forall x | MayActAs(b, reader, x)
      ensures !HasAnyColumn(b, x, Insert)
    {
      assert !IsReason(a, reader, {Insert}, Holds(x, Insert));
      forall c
        ensures HasColumn(b, x, Insert, c) ==> HasColumn(a, x, Insert, c)
      {
      }
    }
    assert Eligible(a, reader, {}) by {
      forall reason
        ensures !IsReason(a, reader, {}, reason)
      {
        assert !IsReason(a, reader, {Insert}, reason);
      }
    }
    GrantsAddNoReason(a, ReaderGrants(reader), reader, reader);
    EligibleIff(b, reader);
    RestrictedIff(b, reader);
  }

  lemma SameInsert(a: Authority, b: Authority, writer: Role, r: Role)
    requires b == WithGrants(a, WriterGrants(writer)) && !Reaches(InheritEdges(a), r, writer)
    ensures HasAnyColumn(b, r, Insert) ==> HasAnyColumn(a, r, Insert)
  {
    GrantsKeepGraph(a, WriterGrants(writer));
    if HasAnyColumn(b, r, Insert) {
      var c :| HasColumn(b, r, Insert, c);
      assert HasColumn(a, r, Insert, c);
    }
  }

  /** The case where it fails: a reader that inherits from a role made a writer afterwards. */
  lemma ReaderLosesEligibility()
    ensures exists a, reader, writer ::
      Provisionable(a, reader, {Insert}) && Provisionable(a, writer, {})
      && !Provisionable(WithGrants(a, WriterGrants(writer)), reader, {Insert})
  {
    var plain := RoleInfo(true, {});
    var a := Authority(map["r" := plain, "w" := plain], {Membership("r", "w", true, false)}, {});
    assert forall r, attribute :: !HasAttribute(a, r, attribute);
    assert forall r, p :: !HasTable(a, r, p);
    assert forall r, p, c :: !HasColumn(a, r, p, c);
    assert Provisionable(a, "r", {Insert}) && Provisionable(a, "w", {});
    assert Membership("r", "w", true, false) in a.members;
    assert ("r", "w") in InheritEdges(a);
    assert ChainBetween(InheritEdges(a), ["r", "w"], "r", "w");
    ReachesSelf(InheritEdges(a), "r");
    assert Reachable(a, "r", "r") && ReachesGrantee(a, "r", "w");
    ReaderStaysIff(a, "r", "w");
  }
}
