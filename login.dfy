/**
 * The login endpoint end to end (index.php, lines 63-325): logout, the
 * hand-off to the identity provider, username extraction, the provisioning
 * gate, the course-attribute check, the authorization gate, the login, the
 * system-role sync, the redirect target and the final error check.
 *
 * Pipeline is the specification: a function of the settings, the request
 * and the collaborators' results giving the outcome, the lookups and hook
 * calls listed in Step (in order), the role operations and the log. HandleLogin
 * is the script itself, step by step, updating the role store, and is
 * proved to do what Pipeline says.
 */
module Login {
  import opened SamlTypes
  import opened PhpStrings
  import opened Identity
  import opened Authorization
  import opened RoleSync
  import opened Redirects
  import opened ErrorReport

  const NoSupport := "nosupport"

  /** A run of the endpoint: how it ended, the directory and hook calls in
      order, the role operations issued and the messages logged. */
  datatype Run = Run(outcome: Outcome, steps: seq<Step>, ops: seq<RoleOp>, logged: seq<Message>)

  /** Lines 192-199: the course claims, or the absence of a configured course attribute. */
  datatype CourseClaims = Claims(values: seq<string>) | ClaimsMissing

  function CourseClaimsOf(enrol: EnrolConfig, attrs: Attributes): (c: CourseClaims)
    ensures c == ClaimsMissing <==>
      enrol.supportcourses != NoSupport && enrol.courses.Some? && enrol.courses.value !in attrs
    ensures enrol.supportcourses != NoSupport && enrol.courses.Some? && enrol.courses.value in attrs ==>
      c == Claims(attrs[enrol.courses.value])
    ensures !(enrol.supportcourses != NoSupport && enrol.courses.Some?) ==> c == Claims([])
  {
    if enrol.supportcourses != NoSupport && enrol.courses.Some? then
      if enrol.courses.value in attrs then Claims(attrs[enrol.courses.value]) else ClaimsMissing
    else Claims([])
  }

  /** Line 202: the course mapping runs only for a non-empty claim list. */
  predicate CourseMappingRuns(enrol: EnrolConfig, samlcourses: seq<string>) {
    samlcourses != [] && enrol.supportcourses != NoSupport
  }

  /** Line 247: the role sync runs only when the `role` setting is set and
      the assertion carries that attribute (possibly with no values). */
  predicate RoleSyncRuns(role: Option<string>, attrs: Attributes) {
    role.Some? && role.value in attrs
  }

  function RoleSyncOps(cfg: Config, attrs: Attributes, env: Environment, userid: int): (ops: seq<RoleOp>)
    ensures !RoleSyncRuns(cfg.plugin.role, attrs) ==> ops == []
    ensures RoleSyncRuns(cfg.plugin.role, attrs) ==> |ops| == |env.assignableRoles|
  {
    if RoleSyncRuns(cfg.plugin.role, attrs) then
      PlannedOps(env.assignableRoles, SystemRolesFor(attrs[cfg.plugin.role.value], cfg.roleMapping),
                 userid, env.systemContext)
    else []
  }

  /** The specification of one request. */
  function Pipeline(cfg: Config, req: Request, env: Environment): Run {
    if req.logout then
      var target := LogoutTarget(req.scriptUri, req.referer);
      Run(if cfg.plugin.dosinglelogout then SingleLogout(target) else Redirect(target), [], [], [])
    else if !req.validSession then
      var outcome :=
        if env.requireAuthError.Some? then
          Halt(Notice(Verbatim(env.requireAuthError.value)), RequestTarget(cfg.wwwroot, req.wantsurl))
        else RequireAuth;
      Run(outcome, [], [], [])
    else ValidSession(cfg, req, env)
  }

  /** Lines 166-199: username, provisioning gate, course attribute. */
  function ValidSession(cfg: Config, req: Request, env: Environment): Run {
    var attrs := req.attributes;
    var field := UsernameField(cfg.plugin.username);
    if field !in attrs then
      Run(Halt(Notice(LangString(UsernameNotFound, field)), LoginPage(cfg.wwwroot)), [], [], [])
    else
      var username := UsernameOf(cfg, req);
      ProvisionAndCourses(cfg, req, env, username, UserExists(env.userFound, env.existsHook),
                          InitialSteps(env, username))
  }

  /** Lines 176-177: the username the rest of the script uses. */
  function UsernameOf(cfg: Config, req: Request): (u: string)
    requires UsernameField(cfg.plugin.username) in req.attributes
    ensures NoUpper(u) && IsTrimmed(u)
  {
    NormaliseUsername(FirstValue(req.attributes[UsernameField(cfg.plugin.username)]))
  }

  /** Lines 180-184: the directory lookup, then the exists hook if it is consulted. */
  function InitialSteps(env: Environment, username: string): (steps: seq<Step>)
    ensures 1 <= |steps| <= 2 && steps[0] == LookupUser(username)
    ensures ExistsHook in steps <==> env.userFound && env.existsHook.Some?
  {
    [LookupUser(username)] + (if ExistsHookCalled(env.userFound, env.existsHook) then [ExistsHook] else [])
  }

  /** Lines 180-199: the provisioning gate and the course-attribute check. */
  function ProvisionAndCourses(cfg: Config, req: Request, env: Environment, username: string,
                               present: bool, steps: seq<Step>): Run
  {
    if JitRefused(present, cfg.plugin.disablejit) then
      Run(Halt(ErrorList(map[LoginError := Single(Paragraph(LangString(JitNotActive, username)))]),
               LoginPage(cfg.wwwroot)), steps, [], [])
    else
      match CourseClaimsOf(cfg.enrol, req.attributes)
      case ClaimsMissing =>
        Run(Halt(Notice(LangString(CoursesNotFound, cfg.enrol.samlcourses)), LoginPage(cfg.wwwroot)),
            steps, [], [])
      case Claims(samlcourses) =>
        AuthorizeAndComplete(cfg, req, env, username, present, samlcourses, steps)
  }

  /** Lines 201-243: course mapping, authorization and the login itself. */
  function AuthorizeAndComplete(cfg: Config, req: Request, env: Environment, username: string,
                                present: bool, samlcourses: seq<string>, steps: seq<Step>): Run
  {
    var mapped := CourseMappingRuns(cfg.enrol, samlcourses);
    var anycourseactive := if mapped then Some(env.mapping.anyCourseActive) else None;
    var err := if mapped then env.mapping.errors else map[];
    var steps1 := steps + (if mapped then [RunCourseMapping] else [])
                        + (if env.authorizeHook.Some? then [AuthorizeHook] else []);
    var verdict := AuthorizationVerdict(present, anycourseactive, username, env.authorizeHook);
    if verdict.Denied? then
      Run(Halt(ErrorList(err[LoginError := Single(Paragraph(verdict.reason))]), LoginPage(cfg.wwwroot)),
          steps1, [], [])
    else if env.authenticated.None? then
      Run(Halt(Notice(LangString(AuthenticationProcessError, username)), LoginPage(cfg.wwwroot)),
          steps1 + [AuthenticateUser], [], [])
    else
      CompleteLogin(cfg, req, env, username, env.authenticated.value, err, steps1 + [AuthenticateUser])
  }

  /** Lines 245-325: role sync, the complete user record, the redirect
      target and the final error check. */
  function CompleteLogin(cfg: Config, req: Request, env: Environment, username: string, userid: int,
                         err: ErrorSet, steps: seq<Step>): Run
  {
    var ops := RoleSyncOps(cfg, req.attributes, env, userid);
    if !env.completeUserData then
      Run(Halt(Notice(LangString(CompleteUserDataError, username)), LoginPage(cfg.wwwroot)),
          steps + [CompleteUserData], ops, [])
    else
      var target := FinalTarget(cfg.wwwroot, RequestTarget(cfg.wwwroot, req.wantsurl), env.sessionWantsUrl);
      var report := ReportErrors(err + env.laterErrors, cfg.plugin.dontdisplaytouser, target);
      Run(report.0, steps + [CompleteUserData], ops, report.1)
  }

  /** The endpoint script. The role store is changed only by the role sync. */
  method HandleLogin(cfg: Config, req: Request, env: Environment, store: RoleStore)
    returns (outcome: Outcome, steps: seq<Step>, ops: seq<RoleOp>, logged: seq<Message>)
    modifies store
    ensures Run(outcome, steps, ops, logged) == Pipeline(cfg, req, env)
    ensures store.rows == ApplyOps(old(store.rows), ops)
  {
    steps, ops, logged := [], [], [];
    if req.logout {
      var urltogo := LogoutTarget(req.scriptUri, req.referer);
      if cfg.plugin.dosinglelogout {
        outcome := SingleLogout(urltogo);
      } else {
        outcome := Redirect(urltogo);
      }
      return;
    }
    if !req.validSession {
      if env.requireAuthError.Some? {
        outcome := Halt(Notice(Verbatim(env.requireAuthError.value)), RequestTarget(cfg.wwwroot, req.wantsurl));
      } else {
        outcome := RequireAuth;
      }
      return;
    }
    outcome, steps, ops, logged := HandleValidSession(cfg, req, env, store);
  }

  /** Lines 166-199. */
  method HandleValidSession(cfg: Config, req: Request, env: Environment, store: RoleStore)
    returns (outcome: Outcome, steps: seq<Step>, ops: seq<RoleOp>, logged: seq<Message>)
    modifies store
    ensures Run(outcome, steps, ops, logged) == ValidSession(cfg, req, env)
    ensures store.rows == ApplyOps(old(store.rows), ops)
  {
    steps, ops, logged := [], [], [];
    var attrs := req.attributes;
    var usernamefield := UsernameField(cfg.plugin.username);
    if usernamefield !in attrs {
      outcome := Halt(Notice(LangString(UsernameNotFound, usernamefield)), LoginPage(cfg.wwwroot));
      return;
    }
    var username := NormaliseUsername(FirstValue(attrs[usernamefield]));

    steps := [LookupUser(username)];
    var userexists := env.userFound;
    if env.existsHook.Some? && userexists {
      steps := steps + [ExistsHook];
      userexists := env.existsHook.value;
    }
    assert userexists == UserExists(env.userFound, env.existsHook);
    assert steps == InitialSteps(env, username);
    outcome, steps, ops, logged := HandleGates(cfg, req, env, store, username, userexists, steps);
  }

  /** Lines 180-199. */
  method HandleGates(cfg: Config, req: Request, env: Environment, store: RoleStore, username: string,
                     userexists: bool, steps0: seq<Step>)
    returns (outcome: Outcome, steps: seq<Step>, ops: seq<RoleOp>, logged: seq<Message>)
    modifies store
    ensures Run(outcome, steps, ops, logged) == ProvisionAndCourses(cfg, req, env, username, userexists, steps0)
    ensures store.rows == ApplyOps(old(store.rows), ops)
  {
    steps, ops, logged := steps0, [], [];
    var attrs := req.attributes;
    if !userexists && cfg.plugin.disablejit {
      outcome := Halt(ErrorList(map[LoginError := Single(Paragraph(LangString(JitNotActive, username)))]),
                      LoginPage(cfg.wwwroot));
      return;
    }

    var samlcourses: seq<string> := [];
    if cfg.enrol.supportcourses != NoSupport && cfg.enrol.courses.Some? {
      if cfg.enrol.courses.value !in attrs {
        outcome := Halt(Notice(LangString(CoursesNotFound, cfg.enrol.samlcourses)), LoginPage(cfg.wwwroot));
        return;
      }
      samlcourses := attrs[cfg.enrol.courses.value];
    }
    outcome, steps, ops, logged := HandleAuthorization(cfg, req, env, store, username, userexists, samlcourses, steps);
  }

  /** Lines 201-243. */
  method HandleAuthorization(cfg: Config, req: Request, env: Environment, store: RoleStore, username: string,
                             userexists: bool, samlcourses: seq<string>, steps0: seq<Step>)
    returns (outcome: Outcome, steps: seq<Step>, ops: seq<RoleOp>, logged: seq<Message>)
    modifies store
    ensures Run(outcome, steps, ops, logged)
              == AuthorizeAndComplete(cfg, req, env, username, userexists, samlcourses, steps0)
    ensures store.rows == ApplyOps(old(store.rows), ops)
  {
    steps, ops, logged := steps0, [], [];
    var err: ErrorSet := map[];
    var anycourseactive: Option<bool> := None;
    if samlcourses != [] && cfg.enrol.supportcourses != NoSupport {
      steps := steps + [RunCourseMapping];
      anycourseactive := Some(env.mapping.anyCourseActive);
      err := env.mapping.errors;
    }

    var userauthorized := true;
    var errorauthorizing := Verbatim("");
    if !userexists && anycourseactive == Some(false) {
      errorauthorizing := LangString(NotAuthorize, username);
      userauthorized := false;
    }
    if env.authorizeHook.Some? {
      steps := steps + [AuthorizeHook];
      var result := env.authorizeHook.value;
      if result.Deny? {
        userauthorized := false;
        errorauthorizing := Verbatim(result.reason);
      }
    }
    ghost var verdict := AuthorizationVerdict(userexists, anycourseactive, username, env.authorizeHook);
    assert userauthorized <==> verdict.Authorized?;
    assert !userauthorized ==> errorauthorizing == verdict.reason;
    assert steps == steps0 + (if CourseMappingRuns(cfg.enrol, samlcourses) then [RunCourseMapping] else [])
                           + (if env.authorizeHook.Some? then [AuthorizeHook] else []);
    if !userauthorized {
      err := err[LoginError := Single(Paragraph(errorauthorizing))];
      outcome := Halt(ErrorList(err), LoginPage(cfg.wwwroot));
      return;
    }

    steps := steps + [AuthenticateUser];
    if env.authenticated.None? {
      outcome := Halt(Notice(LangString(AuthenticationProcessError, username)), LoginPage(cfg.wwwroot));
      return;
    }
    outcome, steps, ops, logged := HandleCompletion(cfg, req, env, store, username, env.authenticated.value, err, steps);
  }

  /** Lines 245-325. */
  method HandleCompletion(cfg: Config, req: Request, env: Environment, store: RoleStore, username: string,
                          userid: int, err0: ErrorSet, steps0: seq<Step>)
    returns (outcome: Outcome, steps: seq<Step>, ops: seq<RoleOp>, logged: seq<Message>)
    modifies store
    ensures Run(outcome, steps, ops, logged) == CompleteLogin(cfg, req, env, username, userid, err0, steps0)
    ensures store.rows == ApplyOps(old(store.rows), ops)
  {
    steps, ops, logged := steps0, [], [];
    var attrs := req.attributes;
    if cfg.plugin.role.Some? && cfg.plugin.role.value in attrs {
      var samlroles := attrs[cfg.plugin.role.value];
      var usersystemroles := CollectSystemRoles(samlroles, cfg.roleMapping);
      ops := SyncSystemRoles(store, env.assignableRoles, usersystemroles, userid, env.systemContext);
    }
    assert ops == RoleSyncOps(cfg, attrs, env, userid);

    steps := steps + [CompleteUserData];
    if !env.completeUserData {
      outcome := Halt(Notice(LangString(CompleteUserDataError, username)), LoginPage(cfg.wwwroot));
      return;
    }

    var urltogo := RequestTarget(cfg.wwwroot, req.wantsurl);
    if SessionTargetApplies(env.sessionWantsUrl) {
      urltogo := env.sessionWantsUrl.value;
    }
    if Contains(urltogo, LoginEndpointPath) {
      urltogo := cfg.wwwroot;
    }
    assert urltogo == FinalTarget(cfg.wwwroot, RequestTarget(cfg.wwwroot, req.wantsurl), env.sessionWantsUrl);

    var err := err0 + env.laterErrors;
    if |err| > 0 {
      if cfg.plugin.dontdisplaytouser {
        err, logged := SuppressCourseEnrollment(err);
      }
      if |err| > 0 {
        outcome := Halt(ErrorList(err), urltogo);
        return;
      }
    }
    outcome := Redirect(urltogo);
  }

  // ---- Properties of the pipeline ----

  /** A missing username attribute halts with a login error before the user
      is looked up, before any hook runs and before any role changes. */
  lemma UsernameMissingHaltsBeforeLookup(cfg: Config, req: Request, env: Environment)
    requires !req.logout && req.validSession
    requires UsernameField(cfg.plugin.username) !in req.attributes
    ensures Pipeline(cfg, req, env)
              == Run(Halt(Notice(LangString(UsernameNotFound, UsernameField(cfg.plugin.username))),
                          LoginPage(cfg.wwwroot)), [], [], [])
  {
  }

  /** Otherwise the first call is the lookup of the normalised first value
      (trim(strtolower(...)), or "" when the attribute has no value). */
  lemma UsernameLookedUpNormalised(cfg: Config, req: Request, env: Environment)
    requires !req.logout && req.validSession
    requires UsernameField(cfg.plugin.username) in req.attributes
    ensures var values := req.attributes[UsernameField(cfg.plugin.username)];
            var steps := Pipeline(cfg, req, env).steps;
            |steps| > 0 && steps[0] == LookupUser(NormaliseUsername(FirstValue(values)))
  {
    ValidSessionStages(cfg, req, env);
  }

  /** An unknown user under disablejit halts with a login error; the course
      mapping, the authorize hook, the login and the role sync never run. */
  lemma JitDisabledHalts(cfg: Config, req: Request, env: Environment)
    requires !req.logout && req.validSession
    requires UsernameField(cfg.plugin.username) in req.attributes
    requires !UserExists(env.userFound, env.existsHook) && cfg.plugin.disablejit
    ensures var r := Pipeline(cfg, req, env);
            var username := UsernameOf(cfg, req);
            r.outcome == Halt(ErrorList(map[LoginError := Single(Paragraph(LangString(JitNotActive, username)))]),
                              LoginPage(cfg.wwwroot)) &&
            RunCourseMapping !in r.steps && AuthorizeHook !in r.steps &&
            AuthenticateUser !in r.steps && r.ops == []
  {
    PipelineReachesGates(cfg, req, env);
  }

  /** A user the directory knows and the exists hook does not disown, whose
      course attribute is present when required and whom no hook refuses,
      reaches authenticate_user_login: neither the provisioning gate nor the
      course check stops them. */
  lemma ExistingUserReachesLogin(cfg: Config, req: Request, env: Environment)
    requires !req.logout && req.validSession
    requires UsernameField(cfg.plugin.username) in req.attributes
    requires UserExists(env.userFound, env.existsHook)
    requires CourseClaimsOf(cfg.enrol, req.attributes) != ClaimsMissing
    requires env.authorizeHook.None? || env.authorizeHook.value == Approve
    ensures AuthenticateUser in Pipeline(cfg, req, env).steps
  {
    PipelineReachesAuthorization(cfg, req, env);
  }

  /** Every denial halts with the reason in the `login` entry, before the
      login and before any role change. */
  lemma DenialHalts(cfg: Config, req: Request, env: Environment)
    requires !req.logout && req.validSession
    requires UsernameField(cfg.plugin.username) in req.attributes
    requires !JitRefused(UserExists(env.userFound, env.existsHook), cfg.plugin.disablejit)
    requires CourseClaimsOf(cfg.enrol, req.attributes).Claims?
    ensures var samlcourses := CourseClaimsOf(cfg.enrol, req.attributes).values;
            var mapped := CourseMappingRuns(cfg.enrol, samlcourses);
            var username := UsernameOf(cfg, req);
            var verdict := AuthorizationVerdict(UserExists(env.userFound, env.existsHook),
                                                if mapped then Some(env.mapping.anyCourseActive) else None,
                                                username, env.authorizeHook);
            var err := if mapped then env.mapping.errors else map[];
            var r := Pipeline(cfg, req, env);
            verdict.Denied? ==>
              r.outcome == Halt(ErrorList(err[LoginError := Single(Paragraph(verdict.reason))]), LoginPage(cfg.wwwroot)) &&
              AuthenticateUser !in r.steps && r.ops == []
  {
    var samlcourses := CourseClaimsOf(cfg.enrol, req.attributes).values;
    PipelineReachesAuthorization(cfg, req, env);
    assert AuthenticateUser !in InitialSteps(env, UsernameOf(cfg, req));
  }

  /** An unknown user for whom the course mapping found no active course is
      refused whatever the authorize hook answers. */
  lemma NoActiveCourseRefused(cfg: Config, req: Request, env: Environment)
    requires !req.logout && req.validSession
    requires UsernameField(cfg.plugin.username) in req.attributes
    requires !UserExists(env.userFound, env.existsHook) && !cfg.plugin.disablejit
    requires CourseClaimsOf(cfg.enrol, req.attributes).Claims?
    requires CourseMappingRuns(cfg.enrol, CourseClaimsOf(cfg.enrol, req.attributes).values)
    requires !env.mapping.anyCourseActive
    ensures Pipeline(cfg, req, env).outcome.Halt?
    ensures AuthenticateUser !in Pipeline(cfg, req, env).steps
  {
    var username := UsernameOf(cfg, req);
    PipelineReachesAuthorization(cfg, req, env);
    HookOnlyVetoes(false, Some(false), username, if env.authorizeHook.Some? then env.authorizeHook.value else Approve);
  }

  /** Without the `role` setting, or without its attribute in the assertion,
      no role is assigned or unassigned, so the role store is left as it was. */
  lemma RoleSyncSkipped(cfg: Config, req: Request, env: Environment)
    requires !RoleSyncRuns(cfg.plugin.role, req.attributes)
    ensures Pipeline(cfg, req, env).ops == []
  {
    RoleSyncOnlyAfterLogin(cfg, req, env);
  }

  /** Role operations are issued exactly when the login succeeded: after
      authenticate_user_login returned a user, the calls are the planned ones
      for that user, one per assignable role in list order; otherwise none. */
  lemma RoleSyncOnlyAfterLogin(cfg: Config, req: Request, env: Environment)
    ensures var r := Pipeline(cfg, req, env);
            r.ops == if AuthenticateUser in r.steps && env.authenticated.Some?
                     then RoleSyncOps(cfg, req.attributes, env, env.authenticated.value) else []
  {
    if !req.logout && req.validSession {
      ValidSessionStages(cfg, req, env);
    }
  }

  /** With the role attribute present, a successful login issues the planned calls. */
  lemma RoleSyncIssued(cfg: Config, req: Request, env: Environment)
    requires RoleSyncRuns(cfg.plugin.role, req.attributes)
    requires AuthenticateUser in Pipeline(cfg, req, env).steps && env.authenticated.Some?
    ensures Pipeline(cfg, req, env).ops ==
              PlannedOps(env.assignableRoles,
                         SystemRolesFor(req.attributes[cfg.plugin.role.value], cfg.roleMapping),
                         env.authenticated.value, env.systemContext)
  {
    RoleSyncOnlyAfterLogin(cfg, req, env);
  }

  /** Lines 202-210: the error map the course mapping leaves, empty when it
      does not run. */
  function CourseErrors(cfg: Config, req: Request, env: Environment): ErrorSet {
    var claims := CourseClaimsOf(cfg.enrol, req.attributes);
    if claims.Claims? && CourseMappingRuns(cfg.enrol, claims.values) then env.mapping.errors else map[]
  }

  /** How a completed login ends, given the error map before the login: the
      final error check over that map and the later entries, with the resolved
      target; the target never points back at the endpoint unless wwwroot does. */
  ghost predicate EndsAtTarget(cfg: Config, req: Request, env: Environment, err: ErrorSet, r: Run) {
    var target := FinalTarget(cfg.wwwroot, RequestTarget(cfg.wwwroot, req.wantsurl), env.sessionWantsUrl);
    (r.outcome, r.logged) == ReportErrors(err + env.laterErrors, cfg.plugin.dontdisplaytouser, target) &&
    (r.outcome.Halt? || r.outcome.Redirect?) &&
    (!Contains(cfg.wwwroot, LoginEndpointPath) ==> !Contains(r.outcome.url, LoginEndpointPath))
  }

  /** A login that completes halts exactly when errors are left after the
      course_enrollment suppression, showing those errors with a link to the
      resolved target, and otherwise redirects to that target; the diverted
      messages are logged. */
  lemma CompletedLoginRedirects(cfg: Config, req: Request, env: Environment)
    requires CompleteUserData in Pipeline(cfg, req, env).steps && env.completeUserData
    ensures EndsAtTarget(cfg, req, env, CourseErrors(cfg, req, env), Pipeline(cfg, req, env))
    ensures var r := Pipeline(cfg, req, env);
            var target := FinalTarget(cfg.wwwroot, RequestTarget(cfg.wwwroot, req.wantsurl), env.sessionWantsUrl);
            var err := CourseErrors(cfg, req, env) + env.laterErrors;
            var flag := cfg.plugin.dontdisplaytouser;
            (r.outcome.Halt? <==> |ShownErrors(err, flag)| > 0) &&
            (r.outcome.Halt? ==> r.outcome == Halt(ErrorList(ShownErrors(err, flag)), target)) &&
            (r.outcome.Redirect? <==> |ShownErrors(err, flag)| == 0) &&
            (r.outcome.Redirect? ==> r.outcome == Redirect(target)) &&
            r.logged == DivertedMessages(err, flag)
  {
    if !req.logout && req.validSession {
      ValidSessionStages(cfg, req, env);
    }
  }

  /** A request with a valid session and a username reaches the provisioning gate. */
  lemma PipelineReachesGates(cfg: Config, req: Request, env: Environment)
    requires !req.logout && req.validSession
    requires UsernameField(cfg.plugin.username) in req.attributes
    ensures Pipeline(cfg, req, env)
              == ProvisionAndCourses(cfg, req, env, UsernameOf(cfg, req), UserExists(env.userFound, env.existsHook),
                                     InitialSteps(env, UsernameOf(cfg, req)))
  {
    assert Pipeline(cfg, req, env) == ValidSession(cfg, req, env);
  }

  /** One that passes the provisioning gate and has its course claims reaches
      the course mapping and the authorization gate. */
  lemma PipelineReachesAuthorization(cfg: Config, req: Request, env: Environment)
    requires !req.logout && req.validSession
    requires UsernameField(cfg.plugin.username) in req.attributes
    requires !JitRefused(UserExists(env.userFound, env.existsHook), cfg.plugin.disablejit)
    requires CourseClaimsOf(cfg.enrol, req.attributes).Claims?
    ensures Pipeline(cfg, req, env)
              == AuthorizeAndComplete(cfg, req, env, UsernameOf(cfg, req), UserExists(env.userFound, env.existsHook),
                                      CourseClaimsOf(cfg.enrol, req.attributes).values,
                                      InitialSteps(env, UsernameOf(cfg, req)))
  {
    PipelineReachesGates(cfg, req, env);
  }

  // ---- One lemma per stage: the calls it adds, the role operations it
  // issues and how it ends once the login is complete ----

  lemma CompleteLoginStage(cfg: Config, req: Request, env: Environment, username: string, userid: int,
                           err: ErrorSet, steps: seq<Step>)
    ensures var r := CompleteLogin(cfg, req, env, username, userid, err, steps);
            r.steps == steps + [CompleteUserData] &&
            r.ops == RoleSyncOps(cfg, req.attributes, env, userid) &&
            (env.completeUserData ==> EndsAtTarget(cfg, req, env, err, r))
  {
    var target := FinalTarget(cfg.wwwroot, RequestTarget(cfg.wwwroot, req.wantsurl), env.sessionWantsUrl);
    if !Contains(cfg.wwwroot, LoginEndpointPath) {
      NoSelfRedirect(cfg.wwwroot, RequestTarget(cfg.wwwroot, req.wantsurl), env.sessionWantsUrl);
    }
  }

  lemma AuthorizeStage(cfg: Config, req: Request, env: Environment, username: string,
                       present: bool, samlcourses: seq<string>, steps: seq<Step>)
    requires AuthenticateUser !in steps && CompleteUserData !in steps
    ensures var r := AuthorizeAndComplete(cfg, req, env, username, present, samlcourses, steps);
            steps <= r.steps &&
            r.ops == (if AuthenticateUser in r.steps && env.authenticated.Some?
                      then RoleSyncOps(cfg, req.attributes, env, env.authenticated.value) else []) &&
            (CompleteUserData in r.steps && env.completeUserData ==> EndsAtTarget(cfg, req, env, if CourseMappingRuns(cfg.enrol, samlcourses) then env.mapping.errors else map[], r))
  {
    var mapped := CourseMappingRuns(cfg.enrol, samlcourses);
    var anycourseactive := if mapped then Some(env.mapping.anyCourseActive) else None;
    var err := if mapped then env.mapping.errors else map[];
    var steps1 := steps + (if mapped then [RunCourseMapping] else [])
                        + (if env.authorizeHook.Some? then [AuthorizeHook] else []);
    assert AuthenticateUser !in steps1 && CompleteUserData !in steps1;
    var verdict := AuthorizationVerdict(present, anycourseactive, username, env.authorizeHook);
    if verdict.Authorized? && env.authenticated.Some? {
      CompleteLoginStage(cfg, req, env, username, env.authenticated.value, err, steps1 + [AuthenticateUser]);
    }
  }

  lemma ProvisionStage(cfg: Config, req: Request, env: Environment, username: string,
                       present: bool, steps: seq<Step>)
    requires AuthenticateUser !in steps && CompleteUserData !in steps
    ensures var r := ProvisionAndCourses(cfg, req, env, username, present, steps);
            steps <= r.steps &&
            r.ops == (if AuthenticateUser in r.steps && env.authenticated.Some?
                      then RoleSyncOps(cfg, req.attributes, env, env.authenticated.value) else []) &&
            (CompleteUserData in r.steps && env.completeUserData ==> EndsAtTarget(cfg, req, env, CourseErrors(cfg, req, env), r))
  {
    if !JitRefused(present, cfg.plugin.disablejit) && CourseClaimsOf(cfg.enrol, req.attributes).Claims? {
      AuthorizeStage(cfg, req, env, username, present, CourseClaimsOf(cfg.enrol, req.attributes).values, steps);
    }
  }

  lemma ValidSessionStages(cfg: Config, req: Request, env: Environment)
    ensures var r := ValidSession(cfg, req, env);
            var field := UsernameField(cfg.plugin.username);
            (field in req.attributes ==>
               |r.steps| > 0 && r.steps[0] == LookupUser(NormaliseUsername(FirstValue(req.attributes[field])))) &&
            r.ops == (if AuthenticateUser in r.steps && env.authenticated.Some?
                      then RoleSyncOps(cfg, req.attributes, env, env.authenticated.value) else []) &&
            (CompleteUserData in r.steps && env.completeUserData ==> EndsAtTarget(cfg, req, env, CourseErrors(cfg, req, env), r))
  {
    var field := UsernameField(cfg.plugin.username);
    if field in req.attributes {
      var username := UsernameOf(cfg, req);
      var steps := InitialSteps(env, username);
      ProvisionStage(cfg, req, env, username, UserExists(env.userFound, env.existsHook), steps);
    }
  }

  /** Logout never looks at the session: it goes to the logout target, via
      the identity provider when single logout is on. */
  lemma LogoutOutcome(cfg: Config, req: Request, env: Environment)
    requires req.logout
    ensures var target := LogoutTarget(req.scriptUri, req.referer);
            Pipeline(cfg, req, env) ==
              Run(if cfg.plugin.dosinglelogout then SingleLogout(target) else Redirect(target), [], [], [])
  {
  }

  // ---- Scenarios ----

  /** An unknown user with JIT enabled, course support on and one claimed
      course that the mapping finds active is authorized and reaches
      authenticate_user_login. */
  lemma UnknownUserWithActiveCourseLogsIn(cfg: Config, req: Request, env: Environment, course: string)
    requires !req.logout && req.validSession
    requires UsernameField(cfg.plugin.username) in req.attributes
    requires !env.userFound && !cfg.plugin.disablejit
    requires cfg.enrol.supportcourses != NoSupport && cfg.enrol.courses.Some?
    requires cfg.enrol.courses.value in req.attributes && req.attributes[cfg.enrol.courses.value] == [course]
    requires env.mapping.anyCourseActive && env.authorizeHook.None?
    ensures var r := Pipeline(cfg, req, env);
            RunCourseMapping in r.steps && AuthenticateUser in r.steps
  {
    PipelineReachesAuthorization(cfg, req, env);
    var username := UsernameOf(cfg, req);
    assert InitialSteps(env, username) == [LookupUser(username)];
  }

  /** An unknown user with course support on and no course attribute in the
      assertion halts at the course-attribute check, with the "courses not
      found" message, before the course mapping and the authorization gate. */
  lemma CourseAttributeMissingHalts(cfg: Config, req: Request, env: Environment)
    requires !req.logout && req.validSession
    requires UsernameField(cfg.plugin.username) in req.attributes
    requires !env.userFound && !cfg.plugin.disablejit
    requires cfg.enrol.supportcourses != NoSupport && cfg.enrol.courses.Some?
    requires cfg.enrol.courses.value !in req.attributes
    ensures var r := Pipeline(cfg, req, env);
            r.outcome == Halt(Notice(LangString(CoursesNotFound, cfg.enrol.samlcourses)), LoginPage(cfg.wwwroot)) &&
            RunCourseMapping !in r.steps && AuthorizeHook !in r.steps && r.ops == []
  {
    PipelineReachesGates(cfg, req, env);
  }
}
