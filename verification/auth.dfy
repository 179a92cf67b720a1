/**
 * The bearer-token gate of the API (`authenticateUser`) and the admin check
 * that follows it (`adminOnly`). The configured secret is a parameter
 * (`None` when the environment variable is unset).
 */
module Auth {
  import opened Wrappers
  import opened JsStrings

  datatype User = User(isAdmin: bool)

  /** What a middleware does with a request: call `next` (once), or answer
      with a status and a message and not call it. */
  datatype Gate = Next(user: User) | Reject(status: int, message: string)

  const BearerPrefix := "Bearer "

  /** `authHeader.split(' ')[1]`: after the leading `Bearer `, the text up to
      the next space or the end. */
  function BearerToken(header: string): (token: string)
    requires StartsWith(header, BearerPrefix)
    ensures ' ' !in token
    ensures token <= header[7..]
    ensures |token| == |header| - 7 || header[7 + |token|] == ' '
  {
    assert header == "Bearer" + [' '] + header[7..];
    SplitAfterPart("Bearer", ' ', header[7..]);
    var rest := header[7..];
    SplitPrefix(rest);
    Split(rest, ' ')[0]
  }

  /** The first part of a split is the longest separator-free prefix. */
  lemma {:induction false} SplitPrefix(s: string)
    ensures Split(s, ' ')[0] <= s
    ensures |Split(s, ' ')[0]| == |s| || s[|Split(s, ' ')[0]|] == ' '
  {
    if s != [] {
      SplitPrefix(s[1..]);
    }
  }

  /** `authenticateUser`: 401 without a `Bearer ` header, 403 when the token is
      not the secret, otherwise an admin user and `next`. */
  function AuthenticateUser(authorization: Option<string>, secret: Option<string>): (g: Gate)
    ensures g.Reject? && g.status == 401 <==> !Truthy(authorization) || !StartsWith(authorization.value, BearerPrefix)
    ensures g.Reject? && g.status == 403 <==>
      Truthy(authorization) && StartsWith(authorization.value, BearerPrefix)
      && secret != Some(BearerToken(authorization.value))
    ensures g.Next? ==> g.user.isAdmin && AdminOnly(Some(g.user)).Next?
    ensures g.Next? <==>
      Truthy(authorization) && StartsWith(authorization.value, BearerPrefix)
      && secret == Some(BearerToken(authorization.value))
  {
    if !Truthy(authorization) || !StartsWith(authorization.value, BearerPrefix) then
      Reject(401, "Authentication required")
    else if secret != Some(BearerToken(authorization.value)) then
      Reject(403, "Invalid or expired token")
    else Next(User(true))
  }

  /** The header `Bearer <secret>` passes when the secret has no space. */
  lemma SecretPasses(secret: string)
    requires ' ' !in secret
    ensures AuthenticateUser(Some(BearerPrefix + secret), Some(secret)).Next?
  {
    var header := BearerPrefix + secret;
    assert header[7..] == secret;
    assert StartsWith(header, BearerPrefix) && header != [];
    var token := BearerToken(header);
    assert |token| == |secret|;
    assert token == secret;
  }

  /** `adminOnly`: passes exactly when a user is set and is an admin. */
  function AdminOnly(user: Option<User>): (g: Gate)
    ensures g.Next? <==> user.Some? && user.value.isAdmin
    ensures g.Next? ==> g.user == user.value
    ensures g.Reject? ==> g.status == 403
  {
    if user.None? || !user.value.isAdmin then Reject(403, "Admin access required")
    else Next(user.value)
  }
}
