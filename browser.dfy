/**
 * Browser detection from the user-agent string and the choice between
 * the desktop and the mobile video that follows from it.
 */
module Browser {
  import opened JsStrings

  /** The device kind the host platform reports for the current view. */
  datatype Device = Desktop | Tablet | Mobile

  /** The three flags the component derives from the user agent, after Chrome is told apart from Safari. */
  datatype BrowserFlags = BrowserFlags(safari: bool, chrome: bool, ios: bool)

  /**
   * The flags as the component computes them: raw substring tests on the
   * user agent, then Safari is cleared when Chrome was also seen (a Chrome
   * user agent carries the token "Safari" as well).
   */
  function DetectBrowser(userAgent: string): (f: BrowserFlags)
    ensures f.safari <==> Contains(userAgent, "Safari") && !Contains(userAgent, "Chrome")
    ensures f.chrome <==> Contains(userAgent, "Chrome")
    ensures f.ios <==> Contains(userAgent, "iPhone") || Contains(userAgent, "iPad")
  {
    var safariAgent := IndexOf(userAgent, "Safari") > -1;
    var chromeAgent := IndexOf(userAgent, "Chrome") > -1;
    var iosAgent := IndexOf(userAgent, "iPhone") > -1 || IndexOf(userAgent, "iPad") > -1;
    var safariAgent' := if chromeAgent && safariAgent then false else safariAgent;
    BrowserFlags(safariAgent', chromeAgent, iosAgent)
  }

  /** The video id handed to the player (line 50 of the component). */
  function SelectVideoId(device: Device, flags: BrowserFlags, videoIdMobile: int, videoIdDesktop: int): (id: int)
    ensures id == videoIdDesktop || id == videoIdMobile
    ensures device != Desktop || flags.safari || flags.ios ==> id == videoIdMobile
    ensures device == Desktop && !flags.safari && !flags.ios ==> id == videoIdDesktop
  {
    if device == Desktop && !flags.safari && !flags.ios then videoIdDesktop else videoIdMobile
  }

  /**
   * The video choice stated on the raw user agent: the desktop id exactly
   * when the device is a desktop, "Safari" is absent or "Chrome" is present,
   * and neither "iPhone" nor "iPad" occurs.
   */
  lemma VideoIdFromUserAgent(userAgent: string, device: Device, videoIdMobile: int, videoIdDesktop: int)
    ensures SelectVideoId(device, DetectBrowser(userAgent), videoIdMobile, videoIdDesktop) ==
      if device == Desktop
         && (!Contains(userAgent, "Safari") || Contains(userAgent, "Chrome"))
         && !Contains(userAgent, "iPhone") && !Contains(userAgent, "iPad")
      then videoIdDesktop else videoIdMobile
  {
  }

  /** A user agent that names both Chrome and Safari is never classified as Safari. */
  lemma ChromeOverridesSafari(userAgent: string)
    requires Contains(userAgent, "Chrome") && Contains(userAgent, "Safari")
    ensures !DetectBrowser(userAgent).safari && DetectBrowser(userAgent).chrome
  {
  }
}
