/** The tenant area's layout (src/components/TenantDashboard/TenantLayout.js):
    the sidebar's tenant id and name, read from the token's claims. */
module TenantLayout {
  import opened Js
  import opened Claims
  import DashboardHome

  const LoginPath := "/rent-login"

  /** The claims the sidebar's id is read from, in order. The first is
      `TenantID`, capitalised, where the dashboard home reads `tenantId`. */
  const IdClaims := ["TenantID", "sub", "userId", NameIdentifier]

  /** `decodedToken.TenantID || decodedToken.sub || decodedToken.userId ||
      decodedToken[nameidentifier]`. */
  function TenantIdOf(p: Payload): (r: string)
    ensures Truthy(Claim(p, "TenantID")) ==> r == Claim(p, "TenantID")
    ensures !Truthy(Claim(p, "TenantID")) && Truthy(Claim(p, "sub")) ==> r == Claim(p, "sub")
    ensures Truthy(r) <==> Truthy(Claim(p, "TenantID")) || Truthy(Claim(p, "sub"))
                           || Truthy(Claim(p, "userId")) || Truthy(Claim(p, NameIdentifier))
    ensures (!Truthy(Claim(p, "TenantID")) && !Truthy(Claim(p, "sub")) && Truthy(Claim(p, "userId")))
      ==> r == Claim(p, "userId")
    ensures (!Truthy(Claim(p, "TenantID")) && !Truthy(Claim(p, "sub")) && !Truthy(Claim(p, "userId")))
      ==> r == Claim(p, NameIdentifier)
  {
    var r := FirstClaim(p, IdClaims);
    FirstClaimIsFirst(p, IdClaims);
    assert IdClaims[0] == "TenantID" && IdClaims[1] == "sub" && IdClaims[2] == "userId" && IdClaims[3] == NameIdentifier;
    assert (exists i :: 0 <= i < 4 && Truthy(Claim(p, IdClaims[i])))
       <==> Truthy(Claim(p, IdClaims[0])) || Truthy(Claim(p, IdClaims[1]))
            || Truthy(Claim(p, IdClaims[2])) || Truthy(Claim(p, IdClaims[3]));
    r
  }

  /** The sidebar and the dashboard home agree on the id whenever neither
      capitalisation of the tenant claim is present. */
  lemma AgreesWithoutTenantClaim(p: Payload)
    requires !Truthy(Claim(p, "TenantID")) && !Truthy(Claim(p, "tenantId"))
    ensures TenantIdOf(p) == DashboardHome.TenantIdOf(p)
  {
    FirstClaimIsFirst(p, IdClaims);
    FirstClaimIsFirst(p, DashboardHome.IdClaims);
    assert IdClaims[1..] == DashboardHome.IdClaims[1..];
  }

  /** But a token whose tenant claim is spelt `tenantId` and whose subject
      differs gives the two views different ids, and a token that carries
      only `tenantId` gives the sidebar no id at all. */
  lemma DisagreesOnSpelling(p: Payload)
    requires Truthy(Claim(p, "tenantId")) && !Truthy(Claim(p, "TenantID"))
    requires !Truthy(Claim(p, "sub")) && !Truthy(Claim(p, "userId")) && !Truthy(Claim(p, NameIdentifier))
    ensures !Truthy(TenantIdOf(p)) && DashboardHome.TenantIdOf(p) == Claim(p, "tenantId")
  {
  }

  /** The sidebar's state: "" stands for the initial `null`. */
  class TenantLayoutView {
    var tenantId: string
    var tenantName: string
    var tokenRemoved: bool
    var redirect: Option<string>

    constructor ()
      ensures tenantId == "" && tenantName == "" && !tokenRemoved && redirect == None
    {
      tenantId := "";
      tenantName := "";
      tokenRemoved := false;
      redirect := None;
    }

    /** The effect on mount: without a token nothing is set and the tenant
        is sent to the login page; a token that does not decode is removed
        and sends them there too; otherwise the id comes from the claim
        chain and the name from the `name` claim alone. */
    method Effect(token: string, decoded: Decoded)
      modifies this
      ensures !Truthy(token) ==>
                tenantId == old(tenantId) && tenantName == old(tenantName)
                && tokenRemoved == old(tokenRemoved) && redirect == Some(LoginPath)
      ensures Truthy(token) && decoded.Decodes? ==>
                tenantId == TenantIdOf(decoded.payload) && tenantName == Claim(decoded.payload, "name")
                && tokenRemoved == old(tokenRemoved) && redirect == old(redirect)
      ensures Truthy(token) && decoded.DecodeError? ==>
                tenantId == old(tenantId) && tenantName == old(tenantName)
                && tokenRemoved && redirect == Some(LoginPath)
    {
      if !Truthy(token) {
        redirect := Some(LoginPath);
      } else if decoded.Decodes? {
        tenantId := TenantIdOf(decoded.payload);
        tenantName := Claim(decoded.payload, "name");
      } else {
        tokenRemoved := true;
        redirect := Some(LoginPath);
      }
    }

    /** "ID: ..." is shown only for a truthy id. */
    predicate ShowsId()
      reads this
    {
      Truthy(tenantId)
    }
  }

  /** After the effect with a decodable token, the sidebar shows an id
      exactly when `TenantID`, `sub`, `userId` or the nameidentifier claim
      is truthy; `tenantId` alone is not enough. */
  method IdShownAfterEffect(token: string, p: Payload) returns (shown: bool)
    requires Truthy(token)
    ensures shown <==> Truthy(Claim(p, "TenantID")) || Truthy(Claim(p, "sub"))
                       || Truthy(Claim(p, "userId")) || Truthy(Claim(p, NameIdentifier))
  {
    var view := new TenantLayoutView();
    view.Effect(token, Decodes(p));
    shown := view.ShowsId();
  }

  /** The sidebar names the tenant only from `name`: a token that carries
      just `tenantName` names them on the dashboard home but not here. */
  lemma NameOnlyFromNameClaim(p: Payload)
    requires Truthy(Claim(p, "tenantName")) && !Truthy(Claim(p, "name"))
    ensures DashboardHome.TenantNameOf(p) == Claim(p, "tenantName")
    ensures Claim(p, "name") == ""
  {
  }
}
