/** backend/src/routes/auth.ts: the validator chains of the session endpoints and the route
    table that wires them, with `authenticate` in front of the profile routes only. */
module AuthRoutes {
  import opened Wrappers
  import opened Text
  import opened Types
  import opened Validators
  import opened Pipeline
  import UserModel
  import AuthMiddleware

  datatype AuthRules = RegisterRules | LoginRules | RefreshRules | LogoutRules

  datatype AuthHandler = RegisterHandler | LoginHandler | RefreshHandler | LogoutHandler | ProfileHandler

  /** The text before the first line terminator: what a regular-expression `.*` can span. */
  function FirstLine(s: string): (r: string)
    ensures |r| <= |s| && r == s[..|r|]
    ensures forall i :: 0 <= i < |r| ==> !IsLineTerminator(r[i])
    ensures |r| < |s| ==> IsLineTerminator(s[|r|])
  {
    if s == [] || IsLineTerminator(s[0]) then []
    else
      var rest := FirstLine(s[1..]);
      assert s[..|rest| + 1] == [s[0]] + s[1..][..|rest|];
      [s[0]] + rest
  }

  /** /^(?=.*[a-z])(?=.*[A-Z])(?=.*\d)/: a lower-case letter, an upper-case letter and a digit,
      each before the first line break. */
  predicate MeetsPolicy(p: string) {
    var line := FirstLine(p);
    && (exists i :: 0 <= i < |line| && 'a' <= line[i] <= 'z')
    && (exists i :: 0 <= i < |line| && 'A' <= line[i] <= 'Z')
    && (exists i :: 0 <= i < |line| && IsDigit(line[i]))
  }

  /** The register chain of `password`: both of its validators run, each adding its message. */
  const ShortPassword := "Password must be at least 6 characters long"
  const WeakPassword := "Password must contain at least one uppercase letter, one lowercase letter, and one number"

  function PasswordRuleErrors(p: string): (r: seq<string>)
    ensures r == [] <==> |p| >= 6 && MeetsPolicy(p)
    ensures |r| <= 2
  {
    var short: seq<string> := if |p| < 6 then [ShortPassword] else [];
    var weak: seq<string> := if !MeetsPolicy(p) then [WeakPassword] else [];
    assert |short + weak| == |short| + |weak|;
    short + weak
  }

  function NameRuleErrors(b: Body, k: string, message: string): (r: seq<string>)
    ensures r == [] <==> 1 <= |Trim(Field(b, k))| <= 50
  {
    if LengthIn(Trim(Field(b, k)), 1, 50) then [] else [message]
  }

  function EmailRuleErrors(b: Body, isEmail: string -> bool): (r: seq<string>)
    ensures r == [] <==> isEmail(Field(b, "email"))
  {
    if isEmail(Field(b, "email")) then [] else ["Please provide a valid email"]
  }

  /** `registerValidation`. */
  function RegisterErrors(b: Body, isEmail: string -> bool): (r: seq<string>)
    ensures r == [] <==>
      && isEmail(Field(b, "email"))
      && |Field(b, "password")| >= 6 && MeetsPolicy(Field(b, "password"))
      && 1 <= |Trim(Field(b, "firstName"))| <= 50 && 1 <= |Trim(Field(b, "lastName"))| <= 50
  {
    var e := EmailRuleErrors(b, isEmail);
    var p := PasswordRuleErrors(Field(b, "password"));
    var f := NameRuleErrors(b, "firstName", "First name must be between 1 and 50 characters");
    var l := NameRuleErrors(b, "lastName", "Last name must be between 1 and 50 characters");
    assert |e + p + f + l| == |e| + |p| + |f| + |l|;
    e + p + f + l
  }

  /** `loginValidation`. */
  function LoginErrors(b: Body, isEmail: string -> bool): (r: seq<string>)
    ensures r == [] <==> isEmail(Field(b, "email")) && Field(b, "password") != ""
  {
    var e := EmailRuleErrors(b, isEmail);
    var p: seq<string> := if Field(b, "password") == "" then ["Password is required"] else [];
    assert |e + p| == |e| + |p|;
    e + p
  }

  /** The `refreshToken` chain shared by the refresh and logout routes. */
  function TokenErrors(b: Body): (r: seq<string>)
    ensures r == [] <==> Field(b, "refreshToken") != ""
  {
    if Field(b, "refreshToken") == "" then ["Refresh token is required"] else []
  }

  /** The messages each rule set reports for a body; `isEmail` is validator.js's address check. */
  function Errors(rules: AuthRules, b: Body, isEmail: string -> bool): seq<string> {
    match rules
    case RegisterRules => RegisterErrors(b, isEmail)
    case LoginRules => LoginErrors(b, isEmail)
    case RefreshRules => TokenErrors(b)
    case LogoutRules => TokenErrors(b)
  }

  /** A body the register rules let through also passes the user schema's password and name
      validators: the route's policy is the stricter of the two. */
  lemma RegisterRulesImplySchema(b: Body, isEmail: string -> bool)
    requires Errors(RegisterRules, b, isEmail) == []
    ensures UserModel.PasswordErrors(Plain(Field(b, "password"))) == []
    ensures UserModel.NameErrors(Trim(Field(b, "firstName")), "First name") == []
    ensures UserModel.NameErrors(Trim(Field(b, "lastName")), "Last name") == []
  {
    assert Errors(RegisterRules, b, isEmail) == RegisterErrors(b, isEmail);
  }

  /** The route table, in declaration order. */
  function Routes(): seq<Route<AuthRules, AuthHandler>> {
    [ Route(Post, "/register", [Validate(RegisterRules)], RegisterHandler),
      Route(Post, "/login", [Validate(LoginRules)], LoginHandler),
      Route(Post, "/refresh", [Validate(RefreshRules)], RefreshHandler),
      Route(Post, "/logout", [Validate(LogoutRules)], LogoutHandler),
      Route(Get, "/profile", [Authenticate], ProfileHandler),
      Route(Get, "/profile/:id", [Authenticate], ProfileHandler) ]
  }

  function Check(b: Body, isEmail: string -> bool): AuthRules -> seq<string> {
    (rules: AuthRules) => Errors(rules, b, isEmail)
  }

  /** The session endpoints never look at credentials: they reach their handler exactly when
      the body passes their rules, with no user attached, whatever the authorization header. */
  lemma SessionRoutesUnguarded(k: nat, env: Env, b: Body, isEmail: string -> bool, rejection: seq<string> -> Reply)
    requires k < |Routes()| && Routes()[k].handler != ProfileHandler
    ensures Routes()[k].chain == [Validate(Routes()[k].chain[0].rules)]
    ensures var r := Run(Routes()[k].chain, None, env, Check(b, isEmail), rejection);
      && (r.Reached? <==> Errors(Routes()[k].chain[0].rules, b, isEmail) == [])
      && (r.Reached? ==> r.user.None?)
      && (r.Stopped? ==> r.reply == rejection(Errors(Routes()[k].chain[0].rules, b, isEmail)))
  {
    var chain := Routes()[k].chain;
    assert k < 4;
    assert chain == [Validate(chain[0].rules)];
    SingleValidation(chain[0].rules, env, Check(b, isEmail), rejection);
  }

  /** The profile routes reach `getProfile` exactly for a stored user presenting a valid access
      token, and answer 401 otherwise. */
  lemma ProfileRoutesAuthenticated(k: nat, env: Env, b: Body, isEmail: string -> bool, rejection: seq<string> -> Reply)
    requires k < |Routes()| && Routes()[k].handler == ProfileHandler
    ensures var r := Run(Routes()[k].chain, None, env, Check(b, isEmail), rejection);
      && (r.Reached? <==> AuthMiddleware.Authentication(env.users, env.cfg, env.header, env.nowMs).Admit?)
      && (r.Reached? ==> r.user.Some? && exists i :: 0 <= i < |env.users| && r.user.value == UserModel.ToJson(env.users[i]))
      && (r.Stopped? ==> r.reply.status == 401)
  {
    assert k == 4 || k == 5;
    assert Routes()[k].chain == [Authenticate];
    Authenticated(env, Check(b, isEmail), rejection);
  }
}
