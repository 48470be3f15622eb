/**
 * The authorization gate (index.php, lines 212-232): the built-in "no
 * active course" denial for users that do not exist yet, then the
 * optional saml_hook_authorize_user, which can only veto.
 */
module Authorization {
  import opened SamlTypes

  datatype Verdict = Authorized | Denied(reason: Message)

  /** Lines 215-219: a user unknown to Moodle is denied when the course
      mapping ran (so `$anycourseactive` is set) and found no active course. */
  function CourseVerdict(present: bool, anycourseactive: Option<bool>, username: string): (v: Verdict)
    ensures v.Denied? <==> !present && anycourseactive == Some(false)
    ensures v.Denied? ==> v.reason == LangString(NotAuthorize, username)
  {
    if !present && anycourseactive == Some(false) then Denied(LangString(NotAuthorize, username))
    else Authorized
  }

  /** Lines 221-227: any answer other than `true` denies, with the answer as
      the reason; `true` leaves the verdict as it was. */
  function ApplyAuthorizeHook(v: Verdict, hook: Option<HookAnswer>): (w: Verdict)
    ensures w.Authorized? ==> v.Authorized?
    ensures v.Denied? ==> w.Denied?
    ensures hook.Some? && hook.value.Deny? ==> w == Denied(Verbatim(hook.value.reason))
    ensures hook.None? || hook.value.Approve? ==> w == v
  {
    match hook
    case None => v
    case Some(Approve) => v
    case Some(Deny(reason)) => Denied(Verbatim(reason))
  }

  /** The verdict the endpoint acts on at line 229. */
  function AuthorizationVerdict(present: bool, anycourseactive: Option<bool>, username: string,
                                hook: Option<HookAnswer>): (v: Verdict)
    ensures v.Authorized? <==>
      !(!present && anycourseactive == Some(false)) && (hook.None? || hook.value == Approve)
    ensures v.Denied? && hook.Some? && hook.value.Deny? ==> v.reason == Verbatim(hook.value.reason)
    ensures v.Denied? && (hook.None? || hook.value == Approve) ==> v.reason == LangString(NotAuthorize, username)
  {
    ApplyAuthorizeHook(CourseVerdict(present, anycourseactive, username), hook)
  }

  /** The hook has a veto and nothing more: whatever it answers, a login the
      course check denied stays denied, an approval keeps the built-in verdict
      with its reason, and a refusal always denies with the hook's reason. */
  lemma HookOnlyVetoes(present: bool, anycourseactive: Option<bool>, username: string, answer: HookAnswer)
    ensures !present && anycourseactive == Some(false) ==>
              AuthorizationVerdict(present, anycourseactive, username, Some(answer)).Denied?
    ensures answer == Approve ==>
              AuthorizationVerdict(present, anycourseactive, username, Some(answer))
                == CourseVerdict(present, anycourseactive, username)
    ensures answer.Deny? ==>
              AuthorizationVerdict(present, anycourseactive, username, Some(answer))
                == Denied(Verbatim(answer.reason))
  {
  }

  /** An existing user, or one for whom the course mapping did not run or
      found an active course, is authorized unless the hook refuses. */
  lemma AuthorizedWithoutVeto(present: bool, anycourseactive: Option<bool>, username: string,
                              hook: Option<HookAnswer>)
    requires present || anycourseactive != Some(false)
    requires hook.None? || hook.value == Approve
    ensures AuthorizationVerdict(present, anycourseactive, username, hook) == Authorized
  {
  }
}
