/**
 * Where the browser is sent: the logout target (index.php, lines 63-71)
 * and the post-login target `$urltogo` (lines 122-130 and 297-303).
 */
module Redirects {
  import opened SamlTypes
  import opened PhpStrings

  /** The endpoint's own path; a target containing it would loop back here. */
  const LoginEndpointPath := "auth/saml/index.php"

  /** `$CFG->wwwroot.'/auth/saml/login.php'`, the page offered after a login error. */
  function LoginPage(wwwroot: string): string {
    wwwroot + "/auth/saml/login.php"
  }

  /** Lines 63-71: SCRIPT_URI with every occurrence of the endpoint path
      removed, else HTTP_REFERER, else "/". */
  function LogoutTarget(scriptUri: Option<string>, referer: Option<string>): (url: string)
    ensures scriptUri.Some? ==> url == RemoveAll(scriptUri.value, LoginEndpointPath)
    ensures scriptUri.None? && referer.Some? ==> url == referer.value
    ensures scriptUri.None? && referer.None? ==> url == "/"
  {
    match scriptUri
    case Some(uri) => RemoveAll(uri, LoginEndpointPath)
    case None => if referer.Some? then referer.value else "/"
  }

  /** A script URI of the form `<base>auth/saml/index.php<rest>`, where no
      occurrence of the path starts inside base, logs out to `<base><rest>`
      with rest's own occurrences removed too. */
  lemma LogoutTargetStripsEndpoint(base: string, rest: string)
    requires forall k :: 0 <= k < |base| ==> !(LoginEndpointPath <= (base + LoginEndpointPath + rest)[k..])
    ensures LogoutTarget(Some(base + LoginEndpointPath + rest), None)
              == base + RemoveAll(rest, LoginEndpointPath)
  {
    assert base + LoginEndpointPath + rest == base + (LoginEndpointPath + rest);
    RemoveAllKeepsPrefix(base, LoginEndpointPath + rest, LoginEndpointPath);
    RemoveAllLeading(LoginEndpointPath, rest);
  }

  /** Lines 122-125: wwwroot, with a '/' appended only when it does not end in one. */
  function SiteRootTarget(wwwroot: string): (url: string)
    ensures wwwroot <= url
    ensures url != [] && url[|url| - 1] == '/'
    ensures |url| <= |wwwroot| + 1
  {
    if |wwwroot| > 0 && wwwroot[|wwwroot| - 1] == '/' then wwwroot else wwwroot + "/"
  }

  /** It is the shortest such extension: a wwwroot ending in '/' is kept as is. */
  lemma SiteRootTargetKeepsSlash(wwwroot: string)
    requires wwwroot != [] && wwwroot[|wwwroot| - 1] == '/'
    ensures SiteRootTarget(wwwroot) == wwwroot
  {
  }

  /** Lines 127-130: a request wantsurl, even an empty one, replaces the site root. */
  function RequestTarget(wwwroot: string, wantsurl: Option<string>): (url: string)
    ensures wantsurl.Some? ==> url == wantsurl.value
    ensures wantsurl.None? ==> url == SiteRootTarget(wwwroot)
  {
    if wantsurl.Some? then wantsurl.value else SiteRootTarget(wwwroot)
  }

  /** Line 297: the session wantsurl counts only when isset and not empty()
      (so neither "" nor "0"). */
  predicate SessionTargetApplies(sessionWantsUrl: Option<string>) {
    sessionWantsUrl.Some? && !IsEmptyString(sessionWantsUrl.value)
  }

  /** Lines 297-303: the session wantsurl replaces the target, and a target
      that contains the endpoint path becomes wwwroot exactly. */
  function FinalTarget(wwwroot: string, urltogo: string, sessionWantsUrl: Option<string>): (url: string)
    ensures Contains(url, LoginEndpointPath) ==> url == wwwroot
    ensures var candidate := if SessionTargetApplies(sessionWantsUrl) then sessionWantsUrl.value else urltogo;
            url == wwwroot || url == candidate
    ensures var candidate := if SessionTargetApplies(sessionWantsUrl) then sessionWantsUrl.value else urltogo;
            !Contains(candidate, LoginEndpointPath) ==> url == candidate
  {
    var candidate := if SessionTargetApplies(sessionWantsUrl) then sessionWantsUrl.value else urltogo;
    if Contains(candidate, LoginEndpointPath) then wwwroot else candidate
  }

  /** The whole precedence: a usable session wantsurl beats the request
      wantsurl, which beats the site root; then the self-redirect guard. */
  lemma RedirectPrecedence(wwwroot: string, wantsurl: Option<string>, sessionWantsUrl: Option<string>)
    ensures SessionTargetApplies(sessionWantsUrl) && !Contains(sessionWantsUrl.value, LoginEndpointPath) ==>
              FinalTarget(wwwroot, RequestTarget(wwwroot, wantsurl), sessionWantsUrl) == sessionWantsUrl.value
    ensures !SessionTargetApplies(sessionWantsUrl) && wantsurl.Some? && !Contains(wantsurl.value, LoginEndpointPath) ==>
              FinalTarget(wwwroot, RequestTarget(wwwroot, wantsurl), sessionWantsUrl) == wantsurl.value
    ensures !SessionTargetApplies(sessionWantsUrl) && wantsurl.None? && !Contains(SiteRootTarget(wwwroot), LoginEndpointPath) ==>
              FinalTarget(wwwroot, RequestTarget(wwwroot, wantsurl), sessionWantsUrl) == SiteRootTarget(wwwroot)
  {
  }

  /** The guard never redirects back to the endpoint unless wwwroot itself
      contains its path. */
  lemma NoSelfRedirect(wwwroot: string, urltogo: string, sessionWantsUrl: Option<string>)
    requires !Contains(wwwroot, LoginEndpointPath)
    ensures !Contains(FinalTarget(wwwroot, urltogo, sessionWantsUrl), LoginEndpointPath)
  {
  }
}
