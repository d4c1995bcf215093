/** ProvisionWriter and ProvisionReader: check and grant in one transaction. */
module Provisioning {
  import opened Roles

  /** How a call ended. Every statement may fail; a failing COMMIT may still have taken effect. */
  datatype Outcome = Ok | Refused | Failed | CommitFailed

  function GrantSet(grants: seq<Grant>): set<Grant> {
    set g | g in grants
  }

  /** `rows` is the server's answer to the eligibility query. */
  ghost predicate AnswersQuery(a: Authority, role: Role, extra: set<Privilege>, rows: seq<Reason>) {
    forall reason :: reason in rows <==> IsReason(a, role, extra, reason)
  }

  method AssertProvisionable(tx: Authority, role: Role, ghost extra: set<Privilege>, rows: seq<Reason>, faulty: bool)
    returns (outcome: Outcome)
    requires AnswersQuery(tx, role, extra, rows)
    ensures outcome == Ok ==> Provisionable(tx, role, extra) && role in tx.roles && tx.roles[role].canLogin && rows == []
    ensures outcome == Refused ==> !Provisionable(tx, role, extra)
    ensures outcome != CommitFailed && (outcome == Failed ==> faulty)
  {
    var fails: bool := *;
    if fails && faulty {
      return Failed;
    }
    if role !in tx.roles {
      return Refused;
    }
    if !tx.roles[role].canLogin {
      return Refused;
    }
    var reasons: seq<Reason> := [];
    for k := 0 to |rows|
      invariant reasons == rows[..k]
    {
      fails := *;
      if fails && faulty {
        return Failed;
      }
      reasons := reasons + [rows[k]];
    }
    if |reasons| > 0 {
      assert rows[0] in rows;
      return Refused;
    }
    return Ok;
  }

  /** The database's committed roles and grants. */
  class Database {
    /** Whether statements may fail. */
    const faulty: bool
    var authority: Authority

    constructor (authority: Authority, faulty: bool)
      ensures this.authority == authority && this.faulty == faulty
    {
      this.authority := authority;
      this.faulty := faulty;
    }

    method Provision(role: Role, ghost extra: set<Privilege>, grants: seq<Grant>, rows: seq<Reason>) returns (outcome: Outcome)
      requires AnswersQuery(authority, role, extra, rows)
      modifies this
      ensures outcome == Ok ==>
                role != "" && Provisionable(old(authority), role, extra)
                && authority == WithGrants(old(authority), GrantSet(grants))
      ensures outcome == Refused ==> role == "" || !Provisionable(old(authority), role, extra)
      ensures outcome == Refused || outcome == Failed ==> authority == old(authority)
      ensures outcome == CommitFailed ==>
                role != "" && Provisionable(old(authority), role, extra)
                && (authority == old(authority) || authority == WithGrants(old(authority), GrantSet(grants)))
      ensures !faulty ==> (outcome == Ok <==> role != "" && Provisionable(old(authority), role, extra))
    {
      if role == "" {
        return Refused;
      }
      var fails: bool := *;
      if fails && faulty {
        return Failed;
      }
      var tx := authority;
      outcome := AssertProvisionable(tx, role, extra, rows, faulty);
      if outcome != Ok {
        return;
      }
      for k := 0 to |grants|
        invariant tx == WithGrants(authority, GrantSet(grants[..k]))
        invariant authority == old(authority)
      {
        fails := *;
        if fails && faulty {
          // the deferred rollback drops what the transaction granted so far
          return Failed;
        }
        tx := tx.(grants := tx.grants + {grants[k]});
        assert GrantSet(grants[..k + 1]) == GrantSet(grants[..k]) + {grants[k]};
      }
      assert grants[..|grants|] == grants;
      fails := *;
      fails := fails && faulty;
      var lands := *;
      if !fails || lands {
        authority := tx;
      }
      return if fails then CommitFailed else Ok;
    }

    /** One writer provisioning: a login role that can append from then on; nobody else gains or loses anything. */
    method ProvisionWriter(role: Role, rows: seq<Reason>) returns (outcome: Outcome)
      requires AnswersQuery(authority, role, {}, rows)
      modifies this
      ensures outcome != CommitFailed ==>
                Provisioned(old(authority), Request.ProvisionWriter(role), outcome == Ok, authority)
      ensures !faulty ==> (outcome == Ok <==> role != "" && Provisionable(old(authority), role, {}))
      ensures outcome == CommitFailed ==>
                exists applied :: Provisioned(old(authority), Request.ProvisionWriter(role), applied, authority)
      ensures outcome == Ok ==> role in authority.roles && authority.roles[role].canLogin && CanAppend(authority, role)
      ensures OnlyGains(old(authority), authority, role, {EventType, Content, Refs})
    {
      var grants := [OnSchema(ToRole(role)),
                     OnColumn(ToRole(role), Insert, EventType),
                     OnColumn(ToRole(role), Insert, Content),
                     OnColumn(ToRole(role), Insert, Refs),
                     OnTable(ToRole(role), Select)];
      assert GrantSet(grants) == WriterGrants(role);
      outcome := Provision(role, {}, grants, rows);
      ghost var applied := authority == WithGrants(old(authority), WriterGrants(role)) && outcome != Failed && outcome != Refused;
      assert Provisioned(old(authority), Request.ProvisionWriter(role), applied, authority);
      WriterGot(old(authority), authority, role);
    }

    /** One reader provisioning: a login role that can read from then on; nobody else gains or loses anything. */
    method ProvisionReader(role: Role, rows: seq<Reason>) returns (outcome: Outcome)
      requires AnswersQuery(authority, role, {Insert}, rows)
      modifies this
      ensures outcome != CommitFailed ==>
                Provisioned(old(authority), Request.ProvisionReader(role), outcome == Ok, authority)
      ensures !faulty ==> (outcome == Ok <==> role != "" && Provisionable(old(authority), role, {Insert}))
      ensures outcome == CommitFailed ==>
                exists applied :: Provisioned(old(authority), Request.ProvisionReader(role), applied, authority)
      ensures outcome == Ok ==> role in authority.roles && authority.roles[role].canLogin && CanRead(authority, role)
      ensures OnlyGains(old(authority), authority, role, {})
    {
      var grants := [OnSchema(ToRole(role)), OnTable(ToRole(role), Select)];
      assert GrantSet(grants) == ReaderGrants(role);
      outcome := Provision(role, {Insert}, grants, rows);
      ghost var applied := authority == WithGrants(old(authority), ReaderGrants(role)) && outcome != Failed && outcome != Refused;
      assert Provisioned(old(authority), Request.ProvisionReader(role), applied, authority);
      ReaderGot(old(authority), authority, role);
    }
  }
}
