/**
 * Username extraction and the provisioning gate (index.php, lines 166-190).
 */
module Identity {
  import opened SamlTypes
  import opened PhpStrings

  const DefaultUsernameAttribute := "eduPersonPrincipalName"

  /** The attribute that carries the username: the `username` setting when
      it is set and not empty, otherwise eduPersonPrincipalName. */
  function UsernameField(setting: Option<string>): (field: string)
    ensures field != ""
    ensures setting.Some? && setting.value != "" ==> field == setting.value
    ensures setting.None? || setting.value == "" ==> field == DefaultUsernameAttribute
  {
    if setting.Some? && setting.value != "" then setting.value else DefaultUsernameAttribute
  }

  /** `$samlattributes[$field][0]`: indexing an empty list yields null,
      which strtolower turns into the empty string. */
  function FirstValue(values: seq<string>): (v: string)
    ensures values != [] ==> v == values[0]
    ensures values == [] ==> v == ""
  {
    if values == [] then "" else values[0]
  }

  /** trim(strtolower($value)): no upper-case letter and nothing trim()
      would strip at either end. */
  function NormaliseUsername(value: string): (u: string)
    ensures NoUpper(u)
    ensures IsTrimmed(u)
    ensures |u| <= |value|
  {
    Trim(ToLower(value))
  }

  /** A username that is already normalised is its own normal form, so the
      extraction is idempotent. */
  lemma NormaliseUsernameIdempotent(value: string)
    ensures NormaliseUsername(NormaliseUsername(value)) == NormaliseUsername(value)
  {
    var u := NormaliseUsername(value);
    ToLowerOfLower(u);
    TrimOfTrimmed(u);
  }

  /** Lines 180-184: the database lookup, AND-ed with saml_hook_user_exists
      when that hook is defined. The hook can turn "exists" into "does not
      exist" and never the reverse. */
  function UserExists(found: bool, hook: Option<bool>): (present: bool)
    ensures present ==> found
    ensures hook.None? ==> present == found
    ensures hook == Some(true) ==> present == found
    ensures hook == Some(false) ==> !present
  {
    found && (hook.None? || hook.value)
  }

  /** The hook is only called when the lookup found a user (`&&` short-circuits). */
  predicate ExistsHookCalled(found: bool, hook: Option<bool>): (called: bool)
    ensures called ==> found
  {
    found && hook.Some?
  }

  /** Lines 186-190: an unknown user is refused when JIT creation is disabled. */
  predicate JitRefused(present: bool, disablejit: bool) {
    !present && disablejit
  }

  /** The provisioning gate stops exactly the users the directory did not
      find, or found but the exists hook disowned, and only under disablejit. */
  lemma ProvisioningGate(found: bool, hook: Option<bool>, disablejit: bool)
    ensures JitRefused(UserExists(found, hook), disablejit) <==>
              disablejit && (!found || hook == Some(false))
  {
  }
}
