/** A route's middleware chain as Express runs it: each step either answers the request, which
    ends the chain, or calls `next()`, and the handler is reached only when every step passed.
    The guards are those of backend/src/middleware/auth.ts; a validation step answers with the
    reply of `validateRequest`, which the model takes as a parameter. */
module Pipeline {
  import opened Wrappers
  import opened Types
  import opened Seqs
  import opened Store
  import Jwt
  import UserModel
  import opened AuthMiddleware

  /** A step of a chain; `R` names the validation rule sets of one route file. */
  datatype Guard<R> = Validate(rules: R) | Authenticate | OptionalAuth | RequireRole(roles: seq<string>) | RequireSubscription

  datatype Verb = Get | Post | Put | Delete

  /** A route: method, path pattern, the chain, and the handler it leads to. */
  datatype Route<R, H> = Route(verb: Verb, path: string, chain: seq<Guard<R>>, handler: H)

  /** What a request meets: the stored users, the signing keys, its authorization header, the clock. */
  datatype Env = Env(users: seq<User>, cfg: Jwt.JwtConfig, header: Option<string>, nowMs: Millis)

  /** The chain reaches the handler with `req.user` as the guards left it, or a step answers. */
  datatype Outcome = Reached(user: Option<PublicUser>) | Stopped(reply: Reply)

  /** Runs the chain from the request's current `req.user`. `check` gives the messages a rule
      set reports for this request, and `rejection` the reply to a non-empty list of them. */
  function Run<R>(chain: seq<Guard<R>>, user: Option<PublicUser>, env: Env,
                  check: R -> seq<string>, rejection: seq<string> -> Reply): (r: Outcome)
    ensures r.Stopped? ==> exists i :: 0 <= i < |chain| && Answers(chain[i], r.reply, env, check, rejection)
    ensures r.Reached? && r.user != user ==> exists i :: 0 <= i < |chain| && (chain[i].Authenticate? || chain[i].OptionalAuth?)
    decreases |chain|
  {
    if chain == [] then Reached(user)
    else match chain[0]
      case Validate(rules) =>
        if check(rules) != [] then Stopped(rejection(check(rules))) else Run(chain[1..], user, env, check, rejection)
      case Authenticate =>
        (match Authentication(env.users, env.cfg, env.header, env.nowMs)
         case Admit(u) => Run(chain[1..], Some(u), env, check, rejection)
         case Deny(reply) => Stopped(reply))
      case OptionalAuth =>
        Run(chain[1..], match OptionalUser(env.users, env.cfg, env.header, env.nowMs) case Some(u) => Some(u) case None => user,
            env, check, rejection)
      case RequireRole(roles) =>
        (match RoleGate(user, roles)
         case Proceed => Run(chain[1..], user, env, check, rejection)
         case Halt(reply) => Stopped(reply))
      case RequireSubscription =>
        (match SubscriptionGate(user, env.nowMs)
         case Proceed => Run(chain[1..], user, env, check, rejection)
         case Halt(reply) => Stopped(reply))
  }

  /** The replies a step can answer with. */
  predicate Answers<R>(g: Guard<R>, reply: Reply, env: Env, check: R -> seq<string>, rejection: seq<string> -> Reply) {
    match g
    case Validate(rules) => check(rules) != [] && reply == rejection(check(rules))
    case Authenticate => reply.status == 401
    case OptionalAuth => false
    case RequireRole(_) => reply.status == 401 || reply.status == 403
    case RequireSubscription => reply.status == 401 || reply.status == 403
  }

  predicate OnlyValidation<R>(chain: seq<Guard<R>>) {
    forall i :: 0 <= i < |chain| ==> chain[i].Validate?
  }

  /** Validation steps pass `req.user` through unchanged, or answer with the rejection of the
      first rule set that reports. */
  lemma {:induction false} ValidationKeepsUser<R>(chain: seq<Guard<R>>, user: Option<PublicUser>, env: Env,
                                                  check: R -> seq<string>, rejection: seq<string> -> Reply)
    requires OnlyValidation(chain)
    ensures var r := Run(chain, user, env, check, rejection);
      && (r.Reached? <==> forall i :: 0 <= i < |chain| ==> check(chain[i].rules) == [])
      && (r.Reached? ==> r.user == user)
    decreases |chain|
  {
    if chain != [] {
      ValidationKeepsUser(chain[1..], user, env, check, rejection);
      assert forall i :: 1 <= i < |chain| ==> chain[i] == chain[1..][i - 1];
    }
  }

  /** `authenticate, requireRole(roles)` followed by validation reaches the handler exactly for a
      stored user whose verified token carries one of `roles`, and hands it that user. */
  lemma AuthenticatedRole<R>(roles: seq<string>, rest: seq<Guard<R>>, env: Env,
                             check: R -> seq<string>, rejection: seq<string> -> Reply)
    requires OnlyValidation(rest)
    ensures var r := Run([Authenticate, RequireRole(roles)] + rest, None, env, check, rejection);
      && (r.Reached? <==>
            && Authentication(env.users, env.cfg, env.header, env.nowMs).Admit?
            && Jwt.RoleName(Authentication(env.users, env.cfg, env.header, env.nowMs).user.role) in roles
            && forall i :: 0 <= i < |rest| ==> check(rest[i].rules) == [])
      && (r.Reached? ==> r.user == Some(Authentication(env.users, env.cfg, env.header, env.nowMs).user))
      && (r.Reached? ==> r.user.Some? && exists i :: 0 <= i < |env.users| && r.user.value == UserModel.ToJson(env.users[i]))
  {
    var chain := [Authenticate, RequireRole(roles)] + rest;
    assert chain[1..] == [RequireRole(roles)] + rest;
    match Authentication(env.users, env.cfg, env.header, env.nowMs)
    case Deny(reply) =>
    case Admit(u) =>
      RoleStep(roles, rest, u, env, check, rejection);
      ValidationKeepsUser(rest, Some(u), env, check, rejection);
  }

  lemma RoleStep<R>(roles: seq<string>, rest: seq<Guard<R>>, u: PublicUser, env: Env,
                    check: R -> seq<string>, rejection: seq<string> -> Reply)
    ensures Run([RequireRole(roles)] + rest, Some(u), env, check, rejection)
      == if Jwt.RoleName(u.role) in roles then Run(rest, Some(u), env, check, rejection) else Stopped(Reply(403, "Insufficient permissions"))
  {
    assert ([RequireRole(roles)] + rest)[1..] == rest;
  }

  /** `authenticate, requireSubscription` reaches the handler exactly for a stored user whose
      verified token is presented and whose subscription snapshot is active now. */
  lemma AuthenticatedSubscriber<R>(env: Env, check: R -> seq<string>, rejection: seq<string> -> Reply)
    ensures var r := Run([Authenticate, RequireSubscription], None, env, check, rejection);
      && (r.Reached? <==>
            && Authentication(env.users, env.cfg, env.header, env.nowMs).Admit?
            && UserModel.HasActiveSubscription(Authentication(env.users, env.cfg, env.header, env.nowMs).user.subscription, env.nowMs))
      && (r.Reached? ==> r.user.Some? && exists i :: 0 <= i < |env.users| && r.user.value == UserModel.ToJson(env.users[i]))
  {
    var chain: seq<Guard<R>> := [Authenticate, RequireSubscription];
    assert chain[1..] == [RequireSubscription];
    match Authentication(env.users, env.cfg, env.header, env.nowMs)
    case Deny(reply) =>
    case Admit(u) => SubscriptionStep(u, env, check, rejection);
  }

  lemma SubscriptionStep<R>(u: PublicUser, env: Env, check: R -> seq<string>, rejection: seq<string> -> Reply)
    ensures var r := Run([RequireSubscription], Some(u), env, check, rejection);
      && (r.Reached? <==> UserModel.HasActiveSubscription(u.subscription, env.nowMs))
      && (r.Reached? ==> r.user == Some(u))
  {
    var chain: seq<Guard<R>> := [RequireSubscription];
    assert chain[1..] == [];
  }

  /** A chain of one validation step reaches the handler, with no user, iff its rule set reports
      nothing, and otherwise answers with the rejection of the messages. */
  lemma SingleValidation<R>(rules: R, env: Env, check: R -> seq<string>, rejection: seq<string> -> Reply)
    ensures var r := Run([Validate(rules)], None, env, check, rejection);
      && (r.Reached? <==> check(rules) == [])
      && (r.Reached? ==> r.user.None?)
      && (r.Stopped? ==> r.reply == rejection(check(rules)))
  {
    var chain: seq<Guard<R>> := [Validate(rules)];
    assert chain[1..] == [];
  }

  /** `authenticate` alone reaches the handler exactly for a stored user with a verified token. */
  lemma Authenticated<R>(env: Env, check: R -> seq<string>, rejection: seq<string> -> Reply)
    ensures var r := Run([Authenticate], None, env, check, rejection);
      && (r.Reached? <==> Authentication(env.users, env.cfg, env.header, env.nowMs).Admit?)
      && (r.Reached? ==> r.user == Some(Authentication(env.users, env.cfg, env.header, env.nowMs).user))
      && (r.Stopped? ==> r.reply.status == 401)
  {
    var chain: seq<Guard<R>> := [Authenticate];
    assert chain[1..] == [];
  }

  /** Validation followed by `optionalAuth` never answers for want of credentials: it stops only
      on a rule set's messages, and otherwise hands over the user the token names, if any. */
  lemma {:induction false} OptionallyAuthenticated<R>(rules: seq<Guard<R>>, env: Env, check: R -> seq<string>, rejection: seq<string> -> Reply)
    requires OnlyValidation(rules)
    ensures var r := Run(rules + [OptionalAuth], None, env, check, rejection);
      && (r.Reached? <==> forall i :: 0 <= i < |rules| ==> check(rules[i].rules) == [])
      && (r.Reached? ==> r.user == OptionalUser(env.users, env.cfg, env.header, env.nowMs))
      && (r.Stopped? ==> exists i :: 0 <= i < |rules| && check(rules[i].rules) != [] && r.reply == rejection(check(rules[i].rules)))
    decreases |rules|
  {
    if rules == [] {
      var chain: seq<Guard<R>> := [OptionalAuth];
      assert rules + [OptionalAuth] == chain && chain[1..] == [];
    } else {
      assert (rules + [OptionalAuth])[1..] == rules[1..] + [OptionalAuth];
      OptionallyAuthenticated(rules[1..], env, check, rejection);
      assert forall i :: 1 <= i < |rules| ==> rules[i] == rules[1..][i - 1];
    }
  }
}
