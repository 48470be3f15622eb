/**
 * The values the SAML login endpoint works on: the assertion's attributes,
 * the plugin settings, the results of the collaborators it calls (the
 * Moodle database, the optional hook functions, the course mapping
 * script), the error map it accumulates and the ways a request can end.
 */
module SamlTypes {

  datatype Option<T> = None | Some(value: T)

  /** The attribute bag of the assertion: attribute name to its ordered values. */
  type Attributes = map<string, seq<string>>

  /** One row of the role-mapping table: a Moodle role shortname and the
      assertion values that grant it, in table order. */
  datatype MappingEntry = MappingEntry(shortname: string, values: seq<string>)

  /** The `auth_saml` settings read by the endpoint. An unset setting is `None`. */
  datatype PluginConfig = PluginConfig(
    username: Option<string>,   // attribute holding the username
    disablejit: bool,           // refuse to create unknown users
    role: Option<string>,       // attribute holding the role claims
    dontdisplaytouser: bool,    // divert course-enrolment errors to the log
    dosinglelogout: bool)       // log out at the identity provider as well

  /** The `enrol_saml` settings read by the endpoint. */
  datatype EnrolConfig = EnrolConfig(
    supportcourses: string,     // 'nosupport' switches course mapping off
    courses: Option<string>,    // attribute holding the course claims
    samlcourses: string)        // the setting named in the "courses not found" message

  datatype Config = Config(
    wwwroot: string,
    plugin: PluginConfig,
    enrol: EnrolConfig,
    roleMapping: seq<MappingEntry>)   // what get_role_mapping_for_sync returns

  /** A role the plugin may assign in the system context. */
  datatype Role = Role(id: int, shortname: string)

  /** One row of Moodle's role assignments: role, user, context and the
      component that made the assignment. */
  datatype Assignment = Assignment(roleid: int, userid: int, contextid: int, component: string)

  datatype RoleOp = Assign(target: Assignment) | Unassign(target: Assignment)

  /** A user-visible message: a language string with its argument, a string
      wrapped in a paragraph, or text produced by code outside this model. */
  datatype Message =
    | LangString(identifier: LangId, a: string)
    | Paragraph(body: Message)
    | Verbatim(text: string)

  /** A value of the error map: one message, or a list of them. */
  datatype ErrorEntry = Single(message: Message) | Listed(messages: seq<Message>)

  /** The categories of `$err`: 'login', 'course_enrollment', and any other
      key some other component uses. */
  datatype ErrorKey = LoginError | CourseEnrollment | OtherCategory(name: OtherCategoryName)

  /** A key other than 'login' and 'course_enrollment', which have their own constructors. */
  type OtherCategoryName = s: string | s != "login" && s != "course_enrollment" witness "other"

  /** The global `$err`: error category to its messages. */
  type ErrorSet = map<ErrorKey, ErrorEntry>

  /** What saml_hook_authorize_user returned: exactly `true`, or any other
      value, kept as the string it turns into when printed. */
  datatype HookAnswer = Approve | Deny(reason: string)

  /** What the course-mapping script leaves behind: whether any mapped course
      is active, and the error map after it ran. */
  datatype CourseMapping = CourseMapping(anyCourseActive: bool, errors: ErrorSet)

  /** The request as the endpoint sees it. */
  datatype Request = Request(
    logout: bool,                  // isset($_GET["logout"])
    scriptUri: Option<string>,     // $_SERVER['SCRIPT_URI']
    referer: Option<string>,       // $_SERVER['HTTP_REFERER']
    wantsurl: Option<string>,      // $_REQUEST['wantsurl']
    validSession: bool,            // $as->isAuthenticated()
    attributes: Attributes)        // $as->getAttributes()

  /** The results of the calls into code this model does not contain. */
  datatype Environment = Environment(
    requireAuthError: Option<string>,   // message of an exception thrown by requireAuth
    userFound: bool,                    // $DB->get_record("user", ...) found a row
    existsHook: Option<bool>,           // saml_hook_user_exists, when defined
    mapping: CourseMapping,             // course_and_role_mapping.php
    authorizeHook: Option<HookAnswer>,  // saml_hook_authorize_user, when defined
    authenticated: Option<int>,         // authenticate_user_login: the user id, or false
    assignableRoles: seq<Role>,         // get_saml_assignable_role_names
    systemContext: int,                 // context_system::instance()->id
    completeUserData: bool,             // get_complete_user_data did not return false
    laterErrors: ErrorSet,              // entries added to $err while the login completes
    sessionWantsUrl: Option<string>)    // $SESSION->wantsurl

  /** The lookups and hook calls the model records, in the order the endpoint
      makes them. The role-mapping read, get_saml_assignable_role_names and
      context_system::instance() are not among them; the role calls are
      recorded apart, as RoleOps. */
  datatype Step =
    | LookupUser(username: string)
    | ExistsHook
    | RunCourseMapping
    | AuthorizeHook
    | AuthenticateUser
    | CompleteUserData

  /** What auth_saml_error is given to show: one message or the whole error map. */
  datatype Report = Notice(message: Message) | ErrorList(errors: ErrorSet)

  /** How a request ends. */
  datatype Outcome =
    | Halt(report: Report, url: string)   // auth_saml_error: show the error, offer url, stop
    | Redirect(url: string)               // redirect() or a Location header
    | SingleLogout(returnTo: string)      // $as->logout($urltogo)
    | RequireAuth                         // $as->requireAuth(): off to the identity provider

  /** The auth_saml language strings the endpoint uses, by identifier. */
  datatype LangId =
    | UsernameNotFound            // auth_saml_username_not_found
    | JitNotActive                // auth_saml_jit_not_active
    | CoursesNotFound             // auth_saml_courses_not_found
    | NotAuthorize                // auth_saml_not_authorize
    | AuthenticationProcessError  // auth_saml_error_authentication_process
    | CompleteUserDataError       // auth_saml_error_complete_user_data
}
