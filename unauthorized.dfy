/**
 * The access-denied page (src/app/unauthorized/page.tsx): the `error` and
 * `message` query parameters decide the alert text. A missing parameter is
 * `None` (`searchParams.get` returns null).
 */
module Unauthorized {
  import opened Wrappers

  const DefaultUnauthorized: string := "You are not authorized to access the admin dashboard."
  const ConfigError: string := "Admin configuration error. Please contact support."
  const CallbackFailed: string := "Authentication failed. Please try again."
  const NoCode: string := "Authentication error. Please try logging in again."

  const KnownErrors: set<string> := {"unauthorized", "config_error", "callback_failed", "no_code"}

  /** The effect of `UnauthorizedContent`: the text the alert shows, or `None` when no alert is rendered. */
  function ErrorText(error: Option<string>, message: Option<string>): Option<string> {
    if error == Some("unauthorized") then
      Some(if message.Some? && message.value != "" then message.value else DefaultUnauthorized)
    else if error == Some("config_error") then Some(ConfigError)
    else if error == Some("callback_failed") then Some(CallbackFailed)
    else if error == Some("no_code") then Some(NoCode)
    else None
  }

  /** An alert is shown exactly for the four known error codes, and its text is never empty (so the `error &&` guard renders it). */
  lemma AlertIffKnownError(error: Option<string>, message: Option<string>)
    ensures ErrorText(error, message).Some? <==> error.Some? && error.value in KnownErrors
    ensures ErrorText(error, message).Some? ==> ErrorText(error, message).value != ""
  {
  }

  /** The message parameter matters only for 'unauthorized'; there a non-empty message is shown verbatim. */
  lemma MessageOnlyForUnauthorized(error: Option<string>, m1: Option<string>, m2: Option<string>)
    ensures error != Some("unauthorized") ==> ErrorText(error, m1) == ErrorText(error, m2)
    ensures error == Some("unauthorized") && m1.Some? && m1.value != "" ==> ErrorText(error, m1) == m1
    ensures error == Some("unauthorized") && (m1.None? || m1.value == "") ==> ErrorText(error, m1) == Some(DefaultUnauthorized)
  {
  }

  /** The four codes map to four different texts when no message is given. */
  lemma KnownErrorsDistinguished(e1: string, e2: string)
    requires e1 in KnownErrors && e2 in KnownErrors
    ensures ErrorText(Some(e1), None) == ErrorText(Some(e2), None) <==> e1 == e2
  {
  }
}
