/** The role-check middleware (backend/src/middlewares/auth.ts): a decision
    on the `X-User-Role` header, which arrives as an arbitrary string or not
    at all. */
module Auth {
  import opened Wrappers
  import opened Annotations

  /** The header value naming each role. */
  function Name(r: Role): string
  {
    match r
    case A1 => "A1"
    case D1 => "D1"
    case D2 => "D2"
    case R1 => "R1"
  }

  /** The header values that name a role. */
  const ValidNames: seq<string> := ["A1", "D1", "D2", "R1"]

  /** The role a header value names, if any. */
  function Parse(s: string): (r: Option<Role>)
    ensures r.Some? ==> Name(r.value) == s
    ensures r.None? <==> s !in ValidNames
  {
    if s == "A1" then Some(A1)
    else if s == "D1" then Some(D1)
    else if s == "D2" then Some(D2)
    else if s == "R1" then Some(R1)
    else None
  }

  lemma ParseName(r: Role)
    ensures Parse(Name(r)) == Some(r)
  {
  }

  /** What the middleware does: reply 401 (`Unauthorized`), reply 403
      (`Forbidden`), or pass the request on (`Next`). */
  datatype Decision = Unauthorized | Forbidden | Next

  /** The middleware `checkRole(allowedRoles)` applied to a request whose
      role header is `header`. */
  function CheckRole(allowedRoles: seq<Role>, header: Option<string>): (d: Decision)
    ensures d == Unauthorized <==> header.None? || header.value !in ValidNames
    ensures d == Next <==> header.Some? && exists r :: r in allowedRoles && Name(r) == header.value
    ensures d == Forbidden <==>
              header.Some? && header.value in ValidNames &&
              forall r :: r in allowedRoles ==> Name(r) != header.value
  {
    if header.None? || header.value == "" then Unauthorized
    else match Parse(header.value)
      case None => Unauthorized
      case Some(role) => if role in allowedRoles then Next else Forbidden
  }

  /** `isAdmin`: only the admin passes. */
  function IsAdmin(header: Option<string>): (d: Decision)
    ensures d == Next <==> header == Some("A1")
    ensures d == Forbidden <==> header.Some? && header.value in ["D1", "D2", "R1"]
  {
    CheckRole([A1], header)
  }

  /** `isUser`: every valid role passes, so nothing is ever forbidden. */
  function IsUser(header: Option<string>): (d: Decision)
    ensures d == Next <==> header.Some? && header.value in ValidNames
    ensures d != Forbidden
  {
    CheckRole([A1, D1, D2, R1], header)
  }
}
