/** How the hook's `/admin` gate and the page handlers' own checks fit
    together: each handler reads the identity the hook stored in the locals, so
    its check can be compared with the gate for every provider outcome. */
module AccessMatrix {

  import opened Types
  import Hooks
  import Preregister
  import Visitors
  import DailyVisitors
  import NewBuilding
  import Buildings

  /** On an `/admin` path, with the identity the hook resolved, the gate lets a request
      through exactly when the daily list and the new-building page would let it through
      on their own, and then the building list does too. The new-building check looks at
      the user only; that is enough because the hook never resolves a user without a session. */
  lemma AdminHandlersAgreeWithGate(decoded: Option<Session>, verify: Hooks.VerifyResult, pathname: string,
                                   queryDate: Option<string>, parsed: Option<DailyVisitors.JsDate>,
                                   today: DailyVisitors.JsDate, daily: QueryResult<Registration>,
                                   buildings: QueryResult<Building>)
    requires Hooks.StartsWith(pathname, Hooks.ADMIN_PREFIX)
    ensures var r := Hooks.SafeGetSession(decoded, verify);
      var gatePasses := Hooks.GateDecision(r.session, r.user, pathname).Resolve?;
      (gatePasses <==> DailyVisitors.Load(r.session, r.user, queryDate, parsed, today, daily).DailyPage?) &&
      (gatePasses <==> NewBuilding.Load(r.user).FormPage?) &&
      (gatePasses ==> Buildings.Load(r.user, buildings).Page?)
  {
  }

  /** The building list's own check is weaker than the gate: alone it would show the list
      to a signed-in user who is not an administrator. */
  lemma BuildingListAloneAdmitsNonAdmin(u: User, s: Session, buildings: QueryResult<Building>)
    requires u.role != Some(ADMIN_ROLE)
    ensures Buildings.Load(Some(u), buildings).Page?
    ensures Hooks.GateDecision(Some(s), Some(u), Buildings.LIST_PATH) == Hooks.Redirect(SEE_OTHER, UNAUTHORIZED_PATH)
  {
  }

  /** The visitor pages lie outside `/admin`: the gate always passes them on, and each page
      admits exactly the requests whose session the provider verified, sending the others
      to log in with the page as the return target. */
  lemma VisitorPagesNeedVerifiedSession(decoded: Option<Session>, verify: Hooks.VerifyResult,
                                        listing: QueryResult<Registration>)
    ensures var r := Hooks.SafeGetSession(decoded, verify);
      Hooks.GateDecision(r.session, r.user, Visitors.VISITORS_PATH).Resolve? &&
      Hooks.GateDecision(r.session, r.user, Preregister.PREREGISTER_PATH).Resolve? &&
      (Visitors.Load(r.session, r.user, listing).Page? <==> decoded.Some? && verify.Verified?) &&
      (Preregister.Load(r.session, r.user).FormPage? <==> decoded.Some? && verify.Verified?)
  {
    assert Visitors.VISITORS_PATH[1] != Hooks.ADMIN_PREFIX[1];
    assert Preregister.PREREGISTER_PATH[1] != Hooks.ADMIN_PREFIX[1];
  }
}
