/**
 * The three route guards. Each one looks at the session and either lets the
 * request through to the next handler or ends it with an error; none of
 * them changes the session (they are functions of it).
 */
module AuthMiddleware {
  import opened Common
  import opened Models

  datatype Verdict = Next | Deny(status: int, error: string)

  /** `authMiddleware`: any signed-in user, whatever the role. */
  function Authenticate(session: Session): (v: Verdict)
    ensures v.Next? <==> session.SignedIn?
    ensures v.Deny? ==> v == Deny(UNAUTHORIZED, "Not authenticated")
  {
    if session.Anonymous? then Deny(UNAUTHORIZED, "Not authenticated") else Next
  }

  /** `managerOnly`. */
  function ManagerOnly(session: Session): (v: Verdict)
    ensures v.Next? <==> session.SignedIn? && session.user.role == MANAGER
    ensures v.Deny? ==> v == Deny(FORBIDDEN, "Access denied. Manager only.")
  {
    if session.Anonymous? || session.user.role != MANAGER then Deny(FORBIDDEN, "Access denied. Manager only.")
    else Next
  }

  /** `helperOnly`. */
  function HelperOnly(session: Session): (v: Verdict)
    ensures v.Next? <==> session.SignedIn? && session.user.role == HELPER
    ensures v.Deny? ==> v == Deny(FORBIDDEN, "Access denied. Helper only.")
  {
    if session.Anonymous? || session.user.role != HELPER then Deny(FORBIDDEN, "Access denied. Helper only.")
    else Next
  }

  /** No session passes either role guard, and no session passes both. */
  lemma RoleGuardsExclusive(session: Session)
    ensures !(ManagerOnly(session).Next? && HelperOnly(session).Next?)
    ensures session.Anonymous? ==> ManagerOnly(session).Deny? && HelperOnly(session).Deny?
    ensures ManagerOnly(session).Next? || HelperOnly(session).Next? ==> Authenticate(session).Next?
  {
  }
}
