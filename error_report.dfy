/**
 * The final error check (index.php, lines 309-325): with `dontdisplaytouser`
 * set, the course_enrollment errors go to the log instead of the page;
 * whatever remains is shown, and an empty error map lets the redirect happen.
 */
module ErrorReport {
  import opened SamlTypes

  /** Lines 312-314: a single message is treated as a one-element list. */
  function Messages(entry: ErrorEntry): (ms: seq<Message>)
    ensures entry.Single? ==> ms == [entry.message]
    ensures entry.Listed? ==> ms == entry.messages
  {
    match entry
    case Single(m) => [m]
    case Listed(ms) => ms
  }

  /** What is logged instead of shown. */
  function DivertedMessages(err: ErrorSet, dontdisplaytouser: bool): (logged: seq<Message>)
    ensures !dontdisplaytouser || CourseEnrollment !in err ==> logged == []
  {
    if dontdisplaytouser && CourseEnrollment in err then Messages(err[CourseEnrollment]) else []
  }

  /** What is left to show. */
  function ShownErrors(err: ErrorSet, dontdisplaytouser: bool): (shown: ErrorSet)
    ensures forall k :: k in shown ==> k in err && shown[k] == err[k]
    ensures dontdisplaytouser ==> CourseEnrollment !in shown
    ensures forall k :: k in err && (k != CourseEnrollment || !dontdisplaytouser) ==> k in shown
  {
    if dontdisplaytouser then err - {CourseEnrollment} else err
  }

  /** Lines 310-320: logs each course_enrollment message once, in order, and
      removes that key; every other key keeps its value. */
  method SuppressCourseEnrollment(err: ErrorSet) returns (remaining: ErrorSet, logged: seq<Message>)
    ensures remaining == ShownErrors(err, true)
    ensures logged == DivertedMessages(err, true)
  {
    remaining := err;
    logged := [];
    if CourseEnrollment in remaining {
      var entry := remaining[CourseEnrollment];
      if entry.Single? {
        remaining := remaining[CourseEnrollment := Listed([entry.message])];
      }
      var messages := remaining[CourseEnrollment].messages;
      assert messages == Messages(err[CourseEnrollment]);
      for i := 0 to |messages|
        invariant logged == messages[..i]
      {
        logged := logged + [messages[i]];
      }
      assert messages[..|messages|] == messages;
      remaining := remaining - {CourseEnrollment};
      assert remaining == err - {CourseEnrollment};
    }
  }

  /** Lines 309-325: the outcome given the error map and the redirect target,
      with the messages written to the log. */
  function ReportErrors(err: ErrorSet, dontdisplaytouser: bool, urltogo: string): (r: (Outcome, seq<Message>))
    ensures r.0.Halt? <==> |ShownErrors(err, dontdisplaytouser)| > 0
    ensures r.0.Halt? ==> r.0 == Halt(ErrorList(ShownErrors(err, dontdisplaytouser)), urltogo)
    ensures r.0.Redirect? ==> r.0 == Redirect(urltogo)
    ensures r.0.Halt? || r.0.Redirect?
    ensures r.1 == DivertedMessages(err, dontdisplaytouser)
  {
    if |err| == 0 then (Redirect(urltogo), [])
    else
      var shown := ShownErrors(err, dontdisplaytouser);
      (if |shown| > 0 then Halt(ErrorList(shown), urltogo) else Redirect(urltogo),
       DivertedMessages(err, dontdisplaytouser))
  }

  /** Without the flag every error is reported and nothing is logged. */
  lemma WithoutFlagAllReported(err: ErrorSet, urltogo: string)
    ensures |err| > 0 ==> ReportErrors(err, false, urltogo) == (Halt(ErrorList(err), urltogo), [])
    ensures |err| == 0 ==> ReportErrors(err, false, urltogo) == (Redirect(urltogo), [])
  {
  }

  /** With the flag, a message is either logged (course_enrollment) or shown
      (any other key), never both; a map holding only course_enrollment
      errors lets the redirect happen. */
  lemma WithFlagDivertsCourseEnrollment(err: ErrorSet, urltogo: string)
    ensures var (outcome, logged) := ReportErrors(err, true, urltogo);
            (outcome.Halt? ==> CourseEnrollment !in outcome.report.errors) &&
            (CourseEnrollment in err ==> logged == Messages(err[CourseEnrollment])) &&
            (err.Keys <= {CourseEnrollment} ==> outcome == Redirect(urltogo))
  {
    var shown := ShownErrors(err, true);
    if err.Keys <= {CourseEnrollment} {
      assert shown.Keys == {};
      assert |shown| == |shown.Keys|;
    }
  }

  /** A worked example: {course_enrollment: [e1, e2], login: [e3]}
      with the flag set shows only the login error and logs e1 and e2. */
  lemma SuppressionExample(e1: Message, e2: Message, e3: Message, urltogo: string)
    ensures var err := map[CourseEnrollment := Listed([e1, e2]), LoginError := Listed([e3])];
            ReportErrors(err, true, urltogo)
              == (Halt(ErrorList(map[LoginError := Listed([e3])]), urltogo), [e1, e2])
  {
    var err := map[CourseEnrollment := Listed([e1, e2]), LoginError := Listed([e3])];
    assert ShownErrors(err, true) == map[LoginError := Listed([e3])];
    assert |map[LoginError := Listed([e3])]| == 1;
  }
}
