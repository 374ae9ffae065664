/** The tenant's dashboard home (src/components/TenantDashboard/DashboardHome.js):
    who the tenant is, read from the token's claims, and the three summary
    figures fetched for them. */
module DashboardHome {
  import opened Js
  import opened Claims
  import opened Api

  const LoginPath := "/rent-login"

  /** The claims the tenant id is read from, in order. */
  const IdClaims := ["tenantId", "sub", "userId", NameIdentifier]

  /** `decodedToken.tenantId || decodedToken.sub || decodedToken.userId ||
      decodedToken[nameidentifier]`: the first truthy one, where `tenantId`
      takes precedence over the standard subject claim `sub`. */
  function TenantIdOf(p: Payload): (r: string)
    ensures Truthy(Claim(p, "tenantId")) ==> r == Claim(p, "tenantId")
    ensures !Truthy(Claim(p, "tenantId")) && Truthy(Claim(p, "sub")) ==> r == Claim(p, "sub")
    ensures Truthy(r) <==> Truthy(Claim(p, "tenantId")) || Truthy(Claim(p, "sub"))
                           || Truthy(Claim(p, "userId")) || Truthy(Claim(p, NameIdentifier))
    ensures (!Truthy(Claim(p, "tenantId")) && !Truthy(Claim(p, "sub")) && Truthy(Claim(p, "userId")))
      ==> r == Claim(p, "userId")
    ensures (!Truthy(Claim(p, "tenantId")) && !Truthy(Claim(p, "sub")) && !Truthy(Claim(p, "userId")))
      ==> r == Claim(p, NameIdentifier)
  {
    var r := FirstClaim(p, IdClaims);
    FirstClaimIsFirst(p, IdClaims);
    assert IdClaims[0] == "tenantId" && IdClaims[1] == "sub" && IdClaims[2] == "userId" && IdClaims[3] == NameIdentifier;
    assert (exists i :: 0 <= i < 4 && Truthy(Claim(p, IdClaims[i])))
       <==> Truthy(Claim(p, IdClaims[0])) || Truthy(Claim(p, IdClaims[1]))
            || Truthy(Claim(p, IdClaims[2])) || Truthy(Claim(p, IdClaims[3]));
    r
  }

  /** `decodedToken.tenantName || decodedToken.name`. */
  function TenantNameOf(p: Payload): (r: string)
    ensures Truthy(Claim(p, "tenantName")) ==> r == Claim(p, "tenantName")
    ensures !Truthy(Claim(p, "tenantName")) ==> r == Claim(p, "name")
  {
    Or(Claim(p, "tenantName"), Claim(p, "name"))
  }

  /** A figure on the dashboard: a number or a text. */
  datatype Value = Num(n: int) | Text(s: string)

  datatype Stat = Stat(title: string, value: Value)

  /** The figures the stats endpoint returns; None for a missing one. */
  datatype StatsBody = StatsBody(activeApplications: Option<int>, currentLease: Option<int>, upcomingPayment: Option<string>)

  const Titles := ["Active Applications", "Current Lease", "Upcoming Payment"]

  /** `n || 0` for a figure that may be missing. */
  function NumOrZero(n: Option<int>): int {
    if n.Some? then n.value else 0
  }

  /** The three stats after the request: the figures (missing ones as 0, 0
      and "$0") for an ok response, "N/A" three times for a response that
      is not ok, "Error" three times when the request or its body throws
      (`null` included). */
  function StatsFor(reply: Outcome<Option<StatsBody>>): (r: seq<Stat>)
    ensures |r| == 3 && forall i :: 0 <= i < 3 ==> r[i].title == Titles[i]
    ensures reply.Ok? && reply.body.Some? ==>
              r[0].value == Num(NumOrZero(reply.body.value.activeApplications))
              && r[1].value == Num(NumOrZero(reply.body.value.currentLease))
              && r[2].value == Text(if reply.body.value.upcomingPayment.Some? && Truthy(reply.body.value.upcomingPayment.value)
                                    then reply.body.value.upcomingPayment.value else "$0")
    ensures reply.NotOk? ==> forall i :: 0 <= i < 3 ==> r[i].value == Text("N/A")
    ensures reply.NoResponse? || (reply.Ok? && reply.body.None?) ==>
              forall i :: 0 <= i < 3 ==> r[i].value == Text("Error")
  {
    match reply
    case Ok(_, Some(data)) =>
      [Stat(Titles[0], Num(NumOrZero(data.activeApplications))),
       Stat(Titles[1], Num(NumOrZero(data.currentLease))),
       Stat(Titles[2], Text(if data.upcomingPayment.Some? then Or(data.upcomingPayment.value, "$0") else "$0"))]
    case NotOk(_, _, _) => [Stat(Titles[0], Text("N/A")), Stat(Titles[1], Text("N/A")), Stat(Titles[2], Text("N/A"))]
    case _ => [Stat(Titles[0], Text("Error")), Stat(Titles[1], Text("Error")), Stat(Titles[2], Text("Error"))]
  }

  /** The three outcomes never show the same figures: a reader can tell an
      ok response from a refused one and from a failed one. */
  lemma StatsOutcomesDistinct(ok: StatsBody, status: int, m: string, e: string, e2: string)
    ensures StatsFor(Ok(200, Some(ok)))[0] != StatsFor(NotOk(status, m, e))[0]
    ensures StatsFor(NotOk(status, m, e))[0] != StatsFor(NoResponse(e2))[0]
    ensures StatsFor(Ok(200, Some(ok)))[0] != StatsFor(NoResponse(e2))[0]
  {
  }

  /** The dashboard's state: "" stands for the initial `null`. */
  class DashboardHomeView {
    var tenantId: string
    var tenantName: string
    var stats: seq<Stat>
    var tokenRemoved: bool
    var redirect: Option<string>

    constructor ()
      ensures tenantId == "" && tenantName == "" && stats == [] && !tokenRemoved && redirect == None
    {
      tenantId := "";
      tenantName := "";
      stats := [];
      tokenRemoved := false;
      redirect := None;
    }

    /** One run of the effect. A missing token redirects to the login page
        and nothing else. Otherwise the claims set the id and the name; a
        token that does not decode is removed and redirects instead. The
        stats are then requested only if the id held by the state when the
        run began is truthy (the closure reads the value of the render that
        scheduled it), and `requested` tells whether they were. */
    method Effect(token: string, decoded: Decoded, statsReply: Outcome<Option<StatsBody>>)
      returns (requested: bool)
      modifies this
      ensures !Truthy(token) ==>
                !requested && redirect == Some(LoginPath)
                && tenantId == old(tenantId) && tenantName == old(tenantName)
                && stats == old(stats) && tokenRemoved == old(tokenRemoved)
      ensures Truthy(token) && decoded.Decodes? ==>
                tenantId == TenantIdOf(decoded.payload) && tenantName == TenantNameOf(decoded.payload)
                && tokenRemoved == old(tokenRemoved) && redirect == old(redirect)
      ensures Truthy(token) && decoded.DecodeError? ==>
                tenantId == old(tenantId) && tenantName == old(tenantName)
                && tokenRemoved && redirect == Some(LoginPath)
      ensures requested <==> Truthy(token) && Truthy(old(tenantId))
      ensures stats == if requested then StatsFor(statsReply) else old(stats)
    {
      var idAtRender := tenantId;
      if !Truthy(token) {
        redirect := Some(LoginPath);
        return false;
      }
      if decoded.Decodes? {
        tenantId := TenantIdOf(decoded.payload);
        tenantName := TenantNameOf(decoded.payload);
      } else {
        tokenRemoved := true;
        redirect := Some(LoginPath);
      }
      requested := Truthy(idAtRender);
      if requested {
        stats := StatsFor(statsReply);
      }
    }

    /** "Tenant ID: ..." is shown only for a truthy id. */
    predicate ShowsId()
      reads this
    {
      Truthy(tenantId)
    }
  }

  /** After the first run with a decodable token, "Tenant ID: ..." is
      shown exactly when one of the four id claims is truthy. */
  method IdShownAfterFirstRun(token: string, p: Payload, reply: Outcome<Option<StatsBody>>)
    returns (shown: bool)
    requires Truthy(token)
    ensures shown <==> Truthy(Claim(p, "tenantId")) || Truthy(Claim(p, "sub"))
                       || Truthy(Claim(p, "userId")) || Truthy(Claim(p, NameIdentifier))
  {
    var view := new DashboardHomeView();
    var _ := view.Effect(token, Decodes(p), reply);
    shown := view.ShowsId();
  }

  /** The first run after mount never requests the stats, since the id
      starts out `null`; a second run, once the id has been set from a
      token with a tenant claim, does. */
  method TwoRuns(token: string, p: Payload, reply: Outcome<Option<StatsBody>>)
    returns (first: bool, second: bool)
    requires Truthy(token) && Truthy(TenantIdOf(p))
    ensures !first && second
  {
    var view := new DashboardHomeView();
    first := view.Effect(token, Decodes(p), reply);
    second := view.Effect(token, Decodes(p), reply);
  }
}
