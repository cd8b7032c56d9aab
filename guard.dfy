/**
 What a page handler does to the shared state, as one value: the assignments
 to `document.cookie`, the call to `setSettingsHandler` if any, the call to
 `setAlertInfoHandler` if any, and the paths passed to `navigate`, each list in
 call order. Also the missing-token guard of the protected pages, which hands
 the same "Unauthorized" alert to the alert page.
 */
module Guard {
  import opened Wrappers
  import opened Js
  import opened Fetch
  import opened Browser
  import opened AlertInfoContext
  import opened ShowHeader

  datatype Effect = Effect(
    cookies: seq<string>,
    settings: Option<Settings>,
    alert: Option<AlertInfo>,
    navigations: seq<string>)

  /** A handler that touches no shared state. */
  const NoEffect: Effect := Effect([], None, None, [])

  /** `setAlertInfoHandler(...)` followed by `navigate("/alert")`. */
  function AlertEffect(info: AlertInfo): (e: Effect)
    ensures e.alert == Some(info) && e.navigations == ["/alert"]
    ensures e.cookies == [] && e.settings.None?
  {
    Effect([], None, Some(info), ["/alert"])
  }

  /** A bare `navigate(path)`. */
  function NavigateEffect(path: string): (e: Effect)
    ensures e.navigations == [path] && e.alert.None?
    ensures e.cookies == [] && e.settings.None?
  {
    Effect([], None, None, [path])
  }

  /** The alert every protected page shows when no token was found. */
  const UnauthorizedAlert: AlertInfo :=
    AlertInfo("Unauthorized", "Authentication token not found. Please log in again.", "Log In", "/log-in", Some("401"))

  /**
   The alert a `catch` block sets from the error it caught: the error's message,
   or `shown` when that message is empty (`error.message || shown`). `thrown` is
   the fallback of the `new Error(data.message || thrown)` the handler raises on a bad answer.
   */
  function CaughtAlert<P>(heading: string, reply: Reply<P>, thrown: string, shown: string,
                          buttonLabel: string, linkURL: string, code: string): (a: AlertInfo)
    ensures a.heading == heading && a.buttonLabel == buttonLabel && a.linkURL == linkURL
    ensures a.errorCode == Some(code)
    ensures reply.Answered? && reply.message != "" ==> a.message == reply.message
    ensures reply.Answered? && reply.message == "" ==> a.message == Or(thrown, shown)
    ensures reply.Rejected? ==> a.message == Or(reply.reason, shown)
  {
    AlertInfo(heading, Or(ErrorMessage(reply, thrown), shown), buttonLabel, linkURL, Some(code))
  }

  /** The effect of the `if (!token)` guard: the Unauthorized alert when the token is missing or empty, nothing otherwise. */
  function TokenGuard(token: Option<string>): (e: Option<Effect>)
    ensures e.None? <==> Truthy(token)
    ensures e.Some? ==> e.value.alert == Some(UnauthorizedAlert) && e.value.navigations == ["/alert"]
  {
    if Truthy(token) then None else Some(AlertEffect(UnauthorizedAlert))
  }

  /** What an alert register holds after the alert part of an effect, given whether a provider is mounted. */
  function AlertAfter(provided: bool, held: AlertInfo, alert: Option<AlertInfo>): (r: AlertInfo)
    ensures alert.None? || !provided ==> r == held
    ensures alert.Some? && provided ==> r == Stored(alert.value)
  {
    if alert.Some? && provided then Stored(alert.value) else held
  }

  /** What a settings register holds after the settings part of an effect, given whether a provider is mounted. */
  function SettingsAfter(provided: bool, held: Settings, settings: Option<Settings>): (r: Settings)
    ensures settings.None? || !provided ==> r == held
    ensures settings.Some? && provided ==> r == settings.value
  {
    if settings.Some? && provided then settings.value else held
  }

  /** The history and the alert register hold the result of applying the alert and navigation parts of `e`. */
  predicate AlertApplied(window: Window, alerts: AlertInfoProvider, e: Effect, history0: seq<string>, alert0: AlertInfo)
    reads window, alerts
  {
    && window.history == history0 + e.navigations
    && alerts.alertInfo == AlertAfter(alerts.provided, alert0, e.alert)
  }

  /** The alert and navigation parts of `e`, for pages that do not touch cookies or settings. */
  method ApplyAlert(window: Window, alerts: AlertInfoProvider, e: Effect)
    modifies window`history, alerts`alertInfo
    ensures AlertApplied(window, alerts, e, old(window.history), old(alerts.alertInfo))
  {
    if e.alert.Some? {
      alerts.SetAlertInfoHandler(e.alert.value);
    }
    window.NavigateAll(e.navigations);
  }

  /**
   The shared state holds the result of applying `e` to the state before it,
   whose cookie writes, history, held alert and held settings were the `...0` values.
   */
  predicate Applied(window: Window, alerts: AlertInfoProvider, header: ShowHeaderSettingsProvider, e: Effect,
                    cookies0: seq<string>, history0: seq<string>, alert0: AlertInfo, settings0: Settings)
    reads window, alerts, header
  {
    && window.cookieWrites == cookies0 + e.cookies
    && window.history == history0 + e.navigations
    && alerts.alertInfo == AlertAfter(alerts.provided, alert0, e.alert)
    && header.settings == SettingsAfter(header.provided, settings0, e.settings)
  }

  /** Every part of `e`. */
  method Apply(window: Window, alerts: AlertInfoProvider, header: ShowHeaderSettingsProvider, e: Effect)
    modifies window`cookieWrites, window`history, alerts`alertInfo, header`settings
    ensures Applied(window, alerts, header, e, old(window.cookieWrites), old(window.history), old(alerts.alertInfo), old(header.settings))
  {
    window.WriteCookies(e.cookies);
    if e.settings.Some? {
      header.SetSettingsHandler(e.settings.value.showHeader, e.settings.value.role);
    }
    if e.alert.Some? {
      alerts.SetAlertInfoHandler(e.alert.value);
    }
    window.NavigateAll(e.navigations);
  }
}
