/** Definitions shared by the two run scripts: optional values, ASCII lower-casing,
    the viewport table, the steps of a page validation, and the URL and screenshot
    names derived from a page path. */
module Shared {

  datatype Option<T> = None | Some(value: T)

  // ---------------------------------------------------------------------------
  // Lower-casing (String.prototype.toLowerCase, restricted to ASCII letters)
  // ---------------------------------------------------------------------------

  function LowerChar(c: char): char
  {
    if 'A' <= c <= 'Z' then (c as int + 32) as char else c
  }

  /** No upper-case ASCII letter occurs in `s`. */
  predicate IsLowerCase(s: string)
  {
    forall i :: 0 <= i < |s| ==> !('A' <= s[i] <= 'Z')
  }

  /** String.prototype.toLowerCase: the string keeps its length and no upper-case
      letter is left in it. */
  function Lower(s: string): (r: string)
    ensures |r| == |s|
    ensures IsLowerCase(r)
  {
    seq(|s|, i requires 0 <= i < |s| => LowerChar(s[i]))
  }

  /** Every character is kept or is an upper-case letter replaced by its lower-case
      form; with IsLowerCase this fixes the result. Doing it twice is doing it once. */
  lemma LowerIsLowerCase(s: string)
    ensures forall i :: 0 <= i < |s| ==>
      Lower(s)[i] == s[i] || ('a' <= Lower(s)[i] <= 'z' && s[i] as int == Lower(s)[i] as int - 32)
    ensures Lower(Lower(s)) == Lower(s)
  {
  }

  /** `s` spells "true" in any mix of cases: an independent, letter-by-letter reading
      of `s.toLowerCase() === 'true'`. */
  predicate SpellsTrue(s: string)
  {
    |s| == 4 &&
    (s[0] == 't' || s[0] == 'T') &&
    (s[1] == 'r' || s[1] == 'R') &&
    (s[2] == 'u' || s[2] == 'U') &&
    (s[3] == 'e' || s[3] == 'E')
  }

  lemma LowerCharIs(c: char, l: char)
    requires 'a' <= l <= 'z'
    ensures LowerChar(c) == l <==> c == l || c as int == l as int - 32
  {
  }

  /** The baseline test of both scripts accepts exactly the spellings of "true". */
  lemma LowerEqualsTrueIff(s: string)
    ensures Lower(s) == "true" <==> SpellsTrue(s)
  {
    if |s| == 4 {
      LowerCharIs(s[0], 't');
      LowerCharIs(s[1], 'r');
      LowerCharIs(s[2], 'u');
      LowerCharIs(s[3], 'e');
      if SpellsTrue(s) {
        assert Lower(s) == "true";
      }
      if Lower(s) == "true" {
        var l := Lower(s);
        assert l[0] == 't' && l[1] == 'r' && l[2] == 'u' && l[3] == 'e';
        assert l[0] == LowerChar(s[0]) && l[1] == LowerChar(s[1]);
        assert l[2] == LowerChar(s[2]) && l[3] == LowerChar(s[3]);
      }
    } else {
      assert |Lower(s)| != |"true"|;
    }
  }

  // ---------------------------------------------------------------------------
  // Viewports (screenResolutions / SCREEN_RESOLUTIONS)
  // ---------------------------------------------------------------------------

  datatype Viewport = Viewport(width: nat, height: nat)

  function ScreenResolution(screenSize: string): (r: Option<Viewport>)
    ensures r.Some? <==> screenSize == "mobile" || screenSize == "desktop"
    ensures screenSize == "mobile" ==> r.value.width < r.value.height
    ensures screenSize == "desktop" ==> r.value.width > r.value.height
  {
    if screenSize == "mobile" then Some(Viewport(390, 844))
    else if screenSize == "desktop" then Some(Viewport(1920, 1080))
    else None
  }

  // ---------------------------------------------------------------------------
  // Steps of a page validation and of a farm session, whose failures come from
  // an oracle: the browser farm and the visual-diff service are not modelled.
  // ---------------------------------------------------------------------------

  /** One awaited call of a page validation. */
  datatype Step =
    | NewPage              // context.newPage()
    | Goto                 // page.goto(url)
    | DeleteWidget         // wait for the widget, remove it, settle
    | LazyImages           // forceLazyImagesLoad: the scroll loop and the scroll back to the top
    | Screenshot           // page.screenshot(...) with animations disabled
    | TakeScreenshot       // the smartui.takeScreenshot action
    | ValidateScreenshot   // validateSmartUIScreenshots: wait, screenshot, fetch status, parse

  /** One awaited call on the farm session itself. */
  datatype SessionStep =
    | Connect              // <engine>.connect({wsEndpoint})
    | NewContext           // browser.newContext({viewport})
    | NewSessionPage       // context.newPage() for the page shared by all validations
    | ClosePage            // page.close() in teardown
    | CloseBrowser         // browser.close()

  /** Why a promise of the scripts rejected. */
  datatype Error =
    | StepFailed(step: Step)        // the step's own error, propagated
    | PageNotDefined                // ReferenceError from `page` used outside its block
    | EngineUndefined               // TypeError from calling `connect` on undefined
    | SessionFailed(call: SessionStep)

  /** How a call of `validatePage` settles. */
  datatype Validation = Returned(ok: bool) | Rejected(error: Error)

  /** Index of the first step of `steps` that throws, or |steps| when none does:
      the awaited steps run in order and the first throw skips the rest. */
  function FirstFailure(steps: seq<Step>, fails: Step -> bool): (k: nat)
    ensures k <= |steps|
    ensures forall j :: 0 <= j < k ==> !fails(steps[j])
    ensures k < |steps| ==> fails(steps[k])
  {
    if steps == [] then 0
    else if fails(steps[0]) then 0
    else 1 + FirstFailure(steps[1..], fails)
  }

  // ---------------------------------------------------------------------------
  // Names derived from a page path
  // ---------------------------------------------------------------------------

  const SiteRoot: string := "https://erbis.com/"
  const ShotPrefix: string := "erbis-"
  const ShotSuffix: string := "-page"

  /** The URL a page path is visited at; the path can be read back from it. */
  function PageUrl(pageName: string): (url: string)
    ensures PageOfUrl(url) == Some(pageName)
  {
    StripAffixesOf(SiteRoot, pageName, "/");
    SiteRoot + pageName + "/"
  }

  /** The name a page's screenshot is saved and compared under; the path can be read
      back from it. */
  function ScreenshotName(pageName: string): (name: string)
    ensures PageOfScreenshotName(name) == Some(pageName)
  {
    StripAffixesOf(ShotPrefix, pageName, ShotSuffix);
    ShotPrefix + pageName + ShotSuffix
  }

  /** `s` is `prefix + x + suffix` for some `x`, which is returned. */
  function StripAffixes(s: string, prefix: string, suffix: string): (r: Option<string>)
    ensures r.Some? ==> s == prefix + r.value + suffix
  {
    if |s| >= |prefix| + |suffix| && s[..|prefix|] == prefix && s[|s| - |suffix|..] == suffix
    then
      var x := s[|prefix|..|s| - |suffix|];
      assert s == s[..|prefix|] + x + s[|s| - |suffix|..];
      Some(x)
    else None
  }

  lemma StripAffixesOf(prefix: string, x: string, suffix: string)
    ensures StripAffixes(prefix + x + suffix, prefix, suffix) == Some(x)
  {
    var s := prefix + x + suffix;
    assert s[..|prefix|] == prefix;
    assert s[|s| - |suffix|..] == suffix;
    assert s[|prefix|..|s| - |suffix|] == x;
  }

  /** The page path a URL was built from. */
  function PageOfUrl(url: string): Option<string>
  {
    StripAffixes(url, SiteRoot, "/")
  }

  /** The page path a screenshot name was built from. */
  function PageOfScreenshotName(name: string): Option<string>
  {
    StripAffixes(name, ShotPrefix, ShotSuffix)
  }

  /** The URL determines its page path, and a URL of the site is one built from a path. */
  lemma UrlRoundTrip(pageName: string, url: string)
    ensures PageOfUrl(PageUrl(pageName)) == Some(pageName)
    ensures PageOfUrl(url) == Some(pageName) <==> url == PageUrl(pageName)
  {
    StripAffixesOf(SiteRoot, pageName, "/");
  }

  /** The screenshot name determines its page path, and conversely. */
  lemma ScreenshotNameRoundTrip(pageName: string, name: string)
    ensures PageOfScreenshotName(ScreenshotName(pageName)) == Some(pageName)
    ensures PageOfScreenshotName(name) == Some(pageName) <==> name == ScreenshotName(pageName)
  {
    StripAffixesOf(ShotPrefix, pageName, ShotSuffix);
  }

  /** Different pages are visited at different URLs and saved under different names. */
  lemma NamesInjective(p: string, q: string)
    ensures PageUrl(p) == PageUrl(q) ==> p == q
    ensures ScreenshotName(p) == ScreenshotName(q) ==> p == q
  {
    UrlRoundTrip(p, PageUrl(p));
    UrlRoundTrip(q, PageUrl(q));
    ScreenshotNameRoundTrip(p, ScreenshotName(p));
    ScreenshotNameRoundTrip(q, ScreenshotName(q));
  }

  predicate Distinct<T(==)>(s: seq<T>)
  {
    forall i, j :: 0 <= i < j < |s| ==> s[i] != s[j]
  }

  /** A catalog without repeated pages writes each screenshot artifact at most once. */
  lemma DistinctScreenshotNames(pages: seq<string>)
    requires Distinct(pages)
    ensures Distinct(seq(|pages|, i requires 0 <= i < |pages| => ScreenshotName(pages[i])))
  {
    forall i, j | 0 <= i < j < |pages|
      ensures ScreenshotName(pages[i]) != ScreenshotName(pages[j])
    {
      NamesInjective(pages[i], pages[j]);
    }
  }
}
