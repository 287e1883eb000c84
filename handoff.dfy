/**
 * What ties the two files together: the root token account.go composes at
 * sign-up is the credential middleware/auth.go's `RequireRoot` accepts.
 */
module Handoff {
  import opened Wrappers
  import opened Strings
  import opened ObjectIds
  import Account
  import Middleware

  /**
   * A root token `hex(id)|hex(accountID)|secret`, presented as
   * `Bearer <root token>`, is parsed back into its components and looked up;
   * it is accepted with the stored token's `Auth` exactly when that token's
   * role reaches the root role.
   */
  lemma ProvisionedRootTokenAuthorizes(env: Middleware.Env, id: ObjectId, acctId: ObjectId, secret: string)
    requires |id.bytes| == ObjectIdBytes && |acctId.bytes| == ObjectIdBytes
    requires '|' !in secret && !Contains(secret, Middleware.BearerPrefix)
    requires env.base.Some?
    requires Middleware.RootTokenKey(env.base.value.name, id, acctId, secret) in env.rootTokens
    ensures var t := env.rootTokens[Middleware.RootTokenKey(env.base.value.name, id, acctId, secret)];
            Middleware.RequireRoot(Middleware.BearerPrefix + Account.RootToken(Hex(id), Hex(acctId), secret), env)
            == if t.role >= Middleware.RootRole then Success(Middleware.AuthOf(t))
               else Failure(Middleware.Denied(Middleware.StatusUnauthorized, Middleware.NotEnoughPermission))
  {
    PrefixChainAssoc(Middleware.BearerPrefix, Hex(id), "|", Hex(acctId), "|", secret);
    Middleware.RootRoleThreshold(env, id, acctId, secret);
  }

  /** The admin created at sign-up holds the root role, so its root token is accepted. */
  lemma AdminRootTokenAuthorizes(env: Middleware.Env, id: ObjectId, acctId: ObjectId, secret: string)
    requires |id.bytes| == ObjectIdBytes && |acctId.bytes| == ObjectIdBytes
    requires '|' !in secret && !Contains(secret, Middleware.BearerPrefix)
    requires env.base.Some?
    requires Middleware.RootTokenKey(env.base.value.name, id, acctId, secret) in env.rootTokens
    requires env.rootTokens[Middleware.RootTokenKey(env.base.value.name, id, acctId, secret)].role == Account.AdminRole
    ensures Middleware.RequireRoot(Middleware.BearerPrefix + Account.RootToken(Hex(id), Hex(acctId), secret), env).Success?
  {
    ProvisionedRootTokenAuthorizes(env, id, acctId, secret);
  }
}
