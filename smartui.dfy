/** The single-engine SmartUI run (playwright-smartui.js): one farm session for the
    browser engine named on the command line, the page catalog validated one page at a
    time on a single page handle, teardown, and a verdict built from the pages whose
    visual status check failed. */
module SmartUi {
  import opened Shared

  // ---------------------------------------------------------------------------
  // Command line
  // ---------------------------------------------------------------------------

  datatype Args = Args(browserName: string, screenSize: string, isBaseline: bool)

  /** `argv` is process.argv without the interpreter and the script path. None is the
      usage error that ends the process with exit code 1. */
  function ParseArgs(argv: seq<string>): (r: Option<Args>)
    ensures r.None? <==> |argv| < 3
  {
    if |argv| < 3 then None
    else Some(Args(Lower(argv[0]), Lower(argv[1]), Lower(argv[2]) == "true"))
  }

  /** What the parsed arguments mean: the first two arguments in lower case, the
      baseline flag set exactly by a spelling of "true", and later arguments ignored. */
  lemma ParseArgsMeaning(argv: seq<string>)
    requires |argv| >= 3
    ensures ParseArgs(argv).Some?
    ensures ParseArgs(argv).value.browserName == Lower(argv[0])
    ensures ParseArgs(argv).value.screenSize == Lower(argv[1])
    ensures IsLowerCase(ParseArgs(argv).value.browserName)
    ensures IsLowerCase(ParseArgs(argv).value.screenSize)
    ensures ParseArgs(argv).value.isBaseline <==> SpellsTrue(argv[2])
    ensures ParseArgs(argv) == ParseArgs(argv[..3])
  {
    LowerIsLowerCase(argv[0]);
    LowerIsLowerCase(argv[1]);
    LowerEqualsTrueIff(argv[2]);
  }

  // ---------------------------------------------------------------------------
  // Lookup tables
  // ---------------------------------------------------------------------------

  predicate IsEngine(b: string)
  {
    b == "chromium" || b == "firefox" || b == "webkit"
  }

  predicate IsScreenSize(s: string)
  {
    s == "mobile" || s == "desktop"
  }

  const BrowserNameToCapability: map<string, string> :=
    map["chromium" := "Chrome", "firefox" := "pw-firefox", "webkit" := "pw-webkit"]

  const BrowserNameToPlatform: map<string, string> :=
    map["chromium" := "Windows 10", "firefox" := "Windows 10", "webkit" := "MacOS Ventura"]

  const ProjectNames: map<string, string> :=
    map[
      "chromium_mobile" := "chrome_mobile",
      "chromium_desktop" := "chrome_desktop",
      "firefox_mobile" := "firefox_mobile",
      "firefox_desktop" := "firefox_desktop",
      "webkit_mobile" := "webkit_mobile",
      "webkit_desktop" := "webkit_desktop"
    ]

  /** A property read on a table object: undefined (None) for a missing key. */
  function Get(m: map<string, string>, key: string): (r: Option<string>)
    ensures r.Some? <==> key in m
    ensures r.Some? ==> r.value == m[key]
  {
    if key in m then Some(m[key]) else None
  }

  function ProjectKey(browser: string, screenSize: string): string
  {
    browser + "_" + screenSize
  }

  /** getSmartUIProjectName: defined only for a key of the table, and then one of its
      six project names (ProjectNameDefinedIff gives which). */
  function GetSmartUIProjectName(browser: string, screenSize: string): (r: Option<string>)
    ensures r.Some? <==> ProjectKey(browser, screenSize) in ProjectNames
    ensures r.Some? ==> r.value in ProjectNames.Values
  {
    Get(ProjectNames, ProjectKey(browser, screenSize))
  }

  /** When the right-hand side has the separator `c` only between its two parts, a
      left-hand side joined by `c` is split at the same place. */
  lemma {:induction false} JoinedAtOnlySeparator(x: string, y: string, x0: string, y0: string, c: char)
    requires c !in x0 && c !in y0
    requires x + [c] + y == x0 + [c] + y0
    ensures x == x0 && y == y0
  {
    var k := x0 + [c] + y0;
    assert k[|x|] == c by { assert (x + [c] + y)[|x|] == c; }
    assert x == k[..|x|] by { assert (x + [c] + y)[..|x|] == x; }
    assert x0 == k[..|x0|];
    assert y == k[|x| + 1..] by { assert (x + [c] + y)[|x| + 1..] == y; }
    assert y0 == k[|x0| + 1..];
  }

  /** Two strings joined by `c` whose first parts are free of `c` are split alike. */
  lemma {:induction false} JoinedAtFirstSeparator(x1: string, y1: string, x2: string, y2: string, c: char)
    requires c !in x1 && c !in x2
    requires x1 + [c] + y1 == x2 + [c] + y2
    ensures x1 == x2 && y1 == y2
  {
    var k := x2 + [c] + y2;
    assert (x1 + [c] + y1)[|x1|] == c;
    assert k[|x2|] == c;
    assert x1 == k[..|x1|] by { assert (x1 + [c] + y1)[..|x1|] == x1; }
    assert x2 == k[..|x2|];
    assert y1 == k[|x1| + 1..] by { assert (x1 + [c] + y1)[|x1| + 1..] == y1; }
    assert y2 == k[|x2| + 1..];
  }

  lemma KeyOf(browser: string, screenSize: string, b0: string, s0: string)
    requires '_' !in b0 && '_' !in s0
    ensures ProjectKey(browser, screenSize) == ProjectKey(b0, s0) <==> browser == b0 && screenSize == s0
  {
    if ProjectKey(browser, screenSize) == ProjectKey(b0, s0) {
      JoinedAtOnlySeparator(browser, screenSize, b0, s0, '_');
    }
  }

  /** The project name is defined for exactly the six engine/size pairs, whatever
      the strings (an underscore inside an argument cannot forge a key); it is
      "chrome_<size>" for chromium and "<engine>_<size>" otherwise. */
  lemma ProjectNameDefinedIff(browser: string, screenSize: string)
    ensures GetSmartUIProjectName(browser, screenSize).Some? <==> IsEngine(browser) && IsScreenSize(screenSize)
    ensures IsEngine(browser) && IsScreenSize(screenSize) ==>
      GetSmartUIProjectName(browser, screenSize).value ==
        (if browser == "chromium" then "chrome" else browser) + "_" + screenSize
  {
    assert ProjectKey("chromium", "mobile") == "chromium_mobile";
    assert ProjectKey("chromium", "desktop") == "chromium_desktop";
    assert ProjectKey("firefox", "mobile") == "firefox_mobile";
    assert ProjectKey("firefox", "desktop") == "firefox_desktop";
    assert ProjectKey("webkit", "mobile") == "webkit_mobile";
    assert ProjectKey("webkit", "desktop") == "webkit_desktop";
    KeyOf(browser, screenSize, "chromium", "mobile");
    KeyOf(browser, screenSize, "chromium", "desktop");
    KeyOf(browser, screenSize, "firefox", "mobile");
    KeyOf(browser, screenSize, "firefox", "desktop");
    KeyOf(browser, screenSize, "webkit", "mobile");
    KeyOf(browser, screenSize, "webkit", "desktop");
  }

  /** Different engine/size pairs report to different SmartUI projects. */
  lemma ProjectNamesDistinct(b1: string, s1: string, b2: string, s2: string)
    requires IsEngine(b1) && IsScreenSize(s1) && IsEngine(b2) && IsScreenSize(s2)
    requires GetSmartUIProjectName(b1, s1) == GetSmartUIProjectName(b2, s2)
    ensures b1 == b2 && s1 == s2
  {
    ProjectNameDefinedIff(b1, s1);
    ProjectNameDefinedIff(b2, s2);
    var e1 := if b1 == "chromium" then "chrome" else b1;
    var e2 := if b2 == "chromium" then "chrome" else b2;
    JoinedAtOnlySeparator(e1, s1, e2, s2, '_');
  }

  // ---------------------------------------------------------------------------
  // Capability descriptor
  // ---------------------------------------------------------------------------

  /** Values read from process.env; None is undefined. */
  datatype Env = Env(ltUsername: Option<string>, ltAccessKey: Option<string>, githubUrl: Option<string>)

  datatype LtOptions = LtOptions(
    platform: Option<string>,
    build: string,
    name: string,
    user: Option<string>,
    accessKey: Option<string>,
    network: bool,
    video: bool,
    console: bool,
    smartUIProjectName: Option<string>,
    smartUIBaseline: bool,
    githubUrl: Option<string>)

  datatype Capability = Capability(browserName: Option<string>, browserVersion: string, options: LtOptions)

  function CapabilityName(browser: string, screenSize: string): string
  {
    "SmartUI Test " + browser + " " + screenSize
  }

  function BuildCapability(args: Args, env: Env): (c: Capability)
    ensures c.browserName.Some? <==> IsEngine(args.browserName)
    ensures c.options.platform.Some? <==> IsEngine(args.browserName)
    ensures c.options.smartUIProjectName.Some? ==> c.browserName.Some?
    ensures c.options.smartUIBaseline == args.isBaseline
  {
    ProjectNameDefinedIff(args.browserName, args.screenSize);
    Capability(
      Get(BrowserNameToCapability, args.browserName),
      "latest",
      LtOptions(
        Get(BrowserNameToPlatform, args.browserName),
        "Playwright SmartUI",
        CapabilityName(args.browserName, args.screenSize),
        env.ltUsername,
        env.ltAccessKey,
        true, true, true,
        GetSmartUIProjectName(args.browserName, args.screenSize),
        args.isBaseline,
        env.githubUrl))
  }

  /** The descriptor of each engine: Chrome on Windows 10 for chromium, the farm's
      Playwright builds of firefox (Windows 10) and webkit (MacOS Ventura). */
  lemma CapabilityOfEngine(args: Args, env: Env)
    requires IsEngine(args.browserName)
    ensures var c := BuildCapability(args, env);
      c.browserVersion == "latest" &&
      (args.browserName == "chromium" ==> c.browserName == Some("Chrome")) &&
      (args.browserName == "firefox" ==> c.browserName == Some("pw-firefox")) &&
      (args.browserName == "webkit" ==> c.browserName == Some("pw-webkit")) &&
      c.options.platform == Some(if args.browserName == "webkit" then "MacOS Ventura" else "Windows 10") &&
      (c.options.smartUIProjectName.Some? <==> IsScreenSize(args.screenSize))
  {
    ProjectNameDefinedIff(args.browserName, args.screenSize);
  }

  /** Session names identify the run: two runs whose browser names contain no space
      share a session name only when engine and size agree. */
  lemma CapabilityNamesDistinct(a1: Args, a2: Args, env1: Env, env2: Env)
    requires ' ' !in a1.browserName && ' ' !in a2.browserName
    requires BuildCapability(a1, env1).options.name == BuildCapability(a2, env2).options.name
    ensures a1.browserName == a2.browserName && a1.screenSize == a2.screenSize
  {
    var prefix := "SmartUI Test ";
    var t1 := a1.browserName + " " + a1.screenSize;
    var t2 := a2.browserName + " " + a2.screenSize;
    assert CapabilityName(a1.browserName, a1.screenSize) == prefix + t1;
    assert CapabilityName(a2.browserName, a2.screenSize) == prefix + t2;
    assert t1 == (prefix + t1)[|prefix|..];
    assert t2 == (prefix + t2)[|prefix|..];
    JoinedAtFirstSeparator(a1.browserName, a1.screenSize, a2.browserName, a2.screenSize, ' ');
  }

  // ---------------------------------------------------------------------------
  // Lazy-image scrolling
  // ---------------------------------------------------------------------------

  /** The vertical scroll positions forceLazyImagesLoad visits, in order, for a
      document of the given height: every multiple of 100 below the height, then the
      top again. */
  method ForceLazyImagesLoad(scrollHeight: nat) returns (positions: seq<nat>)
    ensures |positions| == (scrollHeight + 99) / 100 + 1
    ensures forall k :: 0 <= k < |positions| - 1 ==> positions[k] == 100 * k && positions[k] < scrollHeight
    ensures forall y :: 0 <= y < scrollHeight && y % 100 == 0 ==> y in positions[..|positions| - 1]
    ensures positions[|positions| - 1] == 0
  {
    positions := [];
    var i := 0;
    while i < scrollHeight
      invariant i == 100 * |positions|
      invariant positions == [] || 100 * (|positions| - 1) < scrollHeight
      invariant forall k :: 0 <= k < |positions| ==> positions[k] == 100 * k && positions[k] < scrollHeight
      decreases scrollHeight - i
    {
      positions := positions + [i];
      i := i + 100;
    }
    StepCount(scrollHeight, |positions|);
    forall y | 0 <= y < scrollHeight && y % 100 == 0
      ensures y in positions
    {
      assert positions[y / 100] == y;
    }
    positions := positions + [0];
  }

  lemma StepCount(h: nat, n: nat)
    requires h <= 100 * n
    requires n == 0 || 100 * (n - 1) < h
    ensures n == (h + 99) / 100
  {
  }

  // ---------------------------------------------------------------------------
  // Validation of one page
  // ---------------------------------------------------------------------------

  /** The awaited steps of validatePage in order; only the last one is inside the try. */
  const PageSteps: seq<Step> :=
    [Goto, DeleteWidget, LazyImages, Screenshot, TakeScreenshot, ValidateScreenshot]

  /** Every step before the visual status check completes for the page. */
  predicate ReachesStatusCheck(pageName: string, fails: (string, Step) -> bool)
  {
    !fails(pageName, Goto) && !fails(pageName, DeleteWidget) && !fails(pageName, LazyImages) &&
    !fails(pageName, Screenshot) && !fails(pageName, TakeScreenshot)
  }

  /** Every step of the page completes, the status check included. */
  predicate PagePasses(pageName: string, fails: (string, Step) -> bool)
  {
    ReachesStatusCheck(pageName, fails) && !fails(pageName, ValidateScreenshot)
  }

  /** validatePage(page, pageName) settles to true when every step completes, to false
      when only the visual status check throws, and rejects with the error of the
      first throwing step before it: those errors escape. */
  function ValidatePage(pageName: string, fails: (string, Step) -> bool): (r: Validation)
    ensures r == Returned(true) <==> PagePasses(pageName, fails)
    ensures r == Returned(false) <==> ReachesStatusCheck(pageName, fails) && fails(pageName, ValidateScreenshot)
    ensures r.Rejected? <==> !ReachesStatusCheck(pageName, fails)
  {
    var k := FirstFailure(PageSteps, s => fails(pageName, s));
    if k == |PageSteps| then Returned(true)
    else if PageSteps[k] == ValidateScreenshot then Returned(false)
    else Rejected(StepFailed(PageSteps[k]))
  }

  /** A rejection carries the error of the first step that throws; the steps after
      it are never awaited. */
  lemma ValidatePageRejection(pageName: string, fails: (string, Step) -> bool)
    requires ValidatePage(pageName, fails).Rejected?
    ensures exists k ::
      0 <= k < |PageSteps| - 1 &&
      ValidatePage(pageName, fails).error == StepFailed(PageSteps[k]) &&
      fails(pageName, PageSteps[k]) && forall j :: 0 <= j < k ==> !fails(pageName, PageSteps[j])
  {
    var k := FirstFailure(PageSteps, s => fails(pageName, s));
    assert PageSteps[k] != ValidateScreenshot;
  }

  // ---------------------------------------------------------------------------
  // The sequential page loop
  // ---------------------------------------------------------------------------

  datatype PageResult = PageResult(isSuccess: bool, pageName: string)

  /** Either every page settled and pushed its result, or the loop was abandoned at
      the page of the given index by a rejection of validatePage. */
  datatype LoopOutcome = Completed(results: seq<PageResult>) | Aborted(index: nat, error: Error)

  /** One result per page, in catalog order, carrying the page's own verdict. */
  predicate ResultsOf(pages: seq<string>, fails: (string, Step) -> bool, results: seq<PageResult>)
  {
    |results| == |pages| &&
    forall i :: 0 <= i < |pages| ==>
      results[i].pageName == pages[i] && ValidatePage(pages[i], fails) == Returned(results[i].isSuccess)
  }

  /** Page `k` is the first whose validation rejects, with `error`. */
  predicate AbortsAt(pages: seq<string>, fails: (string, Step) -> bool, k: nat, error: Error)
  {
    k < |pages| && ValidatePage(pages[k], fails) == Rejected(error) &&
    forall j :: 0 <= j < k ==> ValidatePage(pages[j], fails).Returned?
  }

  /** Every page's validation settles without rejecting. */
  predicate AllReturn(pages: seq<string>, fails: (string, Step) -> bool)
  {
    forall i :: 0 <= i < |pages| ==> ValidatePage(pages[i], fails).Returned?
  }

  /** The outcome of `for (let pageName of pages) results.push(await validatePage(...))`. */
  function Loop(pages: seq<string>, fails: (string, Step) -> bool): (r: LoopOutcome)
    ensures r.Aborted? ==> r.index < |pages|
    decreases |pages|
  {
    if pages == [] then Completed([])
    else
      match ValidatePage(pages[0], fails)
      case Rejected(e) => Aborted(0, e)
      case Returned(ok) =>
        match Loop(pages[1..], fails)
        case Completed(rest) => Completed([PageResult(ok, pages[0])] + rest)
        case Aborted(k, e) => Aborted(k + 1, e)
  }

  /** The loop completes exactly when no validation rejects, and then holds one result
      per page in order; otherwise it stops at the first rejecting page. */
  lemma {:induction false} LoopMeaning(pages: seq<string>, fails: (string, Step) -> bool)
    ensures Loop(pages, fails).Completed? <==> AllReturn(pages, fails)
    ensures Loop(pages, fails).Completed? ==> ResultsOf(pages, fails, Loop(pages, fails).results)
    ensures Loop(pages, fails).Aborted? ==> AbortsAt(pages, fails, Loop(pages, fails).index, Loop(pages, fails).error)
    decreases |pages|
  {
    if pages != [] {
      var rest := pages[1..];
      LoopMeaning(rest, fails);
      var v := ValidatePage(pages[0], fails);
      var l := Loop(pages, fails);
      if v.Rejected? {
        assert l == Aborted(0, v.error);
        assert !AllReturn(pages, fails);
      } else {
        var lr := Loop(rest, fails);
        if lr.Completed? {
          assert l == Completed([PageResult(v.ok, pages[0])] + lr.results);
          forall i | 0 <= i < |pages|
            ensures l.results[i].pageName == pages[i] && ValidatePage(pages[i], fails) == Returned(l.results[i].isSuccess)
          {
            if i > 0 {
              assert l.results[i] == lr.results[i - 1] && pages[i] == rest[i - 1];
            }
          }
          assert AllReturn(pages, fails);
        } else {
          assert l == Aborted(lr.index + 1, lr.error);
          assert pages[l.index] == rest[lr.index];
          forall j | 0 <= j < l.index ensures ValidatePage(pages[j], fails).Returned? {
            if j > 0 { assert pages[j] == rest[j - 1]; }
          }
          assert !AllReturn(pages, fails);
        }
      }
    }
  }

  /** The two characterisations of the loop leave one outcome only. */
  lemma LoopDetermined(pages: seq<string>, fails: (string, Step) -> bool, r: LoopOutcome)
    requires r.Completed? ==> ResultsOf(pages, fails, r.results)
    requires r.Aborted? ==> AbortsAt(pages, fails, r.index, r.error)
    ensures r == Loop(pages, fails)
  {
    LoopMeaning(pages, fails);
    var l := Loop(pages, fails);
    if r.Completed? && l.Completed? {
      assert r.results == l.results by {
        forall i | 0 <= i < |pages| ensures r.results[i] == l.results[i] {
          assert ValidatePage(pages[i], fails) == Returned(r.results[i].isSuccess);
          assert ValidatePage(pages[i], fails) == Returned(l.results[i].isSuccess);
        }
      }
    }
  }

  /** The results loop as the script runs it, pushing into `results`. */
  method CollectResults(pages: seq<string>, fails: (string, Step) -> bool) returns (r: LoopOutcome)
    ensures r == Loop(pages, fails)
  {
    var results: seq<PageResult> := [];
    var i := 0;
    while i < |pages|
      invariant 0 <= i <= |pages|
      invariant |results| == i
      invariant forall j :: 0 <= j < i ==>
        results[j].pageName == pages[j] && ValidatePage(pages[j], fails) == Returned(results[j].isSuccess)
    {
      var v := ValidatePage(pages[i], fails);
      if v.Rejected? {
        r := Aborted(i, v.error);
        LoopDetermined(pages, fails, r);
        return;
      }
      results := results + [PageResult(v.ok, pages[i])];
      i := i + 1;
    }
    r := Completed(results);
    LoopDetermined(pages, fails, r);
  }

  // ---------------------------------------------------------------------------
  // Failing pages
  // ---------------------------------------------------------------------------

  /** results.filter(r => !r.isSuccess).map(r => r.pageName) */
  function FailedPages(results: seq<PageResult>): (failed: seq<string>)
    ensures |failed| <= |results|
  {
    if results == [] then []
    else (if results[0].isSuccess then [] else [results[0].pageName]) + FailedPages(results[1..])
  }

  /** The filter keeps order: it distributes over concatenation. */
  lemma {:induction false} FailedPagesAppend(a: seq<PageResult>, b: seq<PageResult>)
    ensures FailedPages(a + b) == FailedPages(a) + FailedPages(b)
    decreases |a|
  {
    if a == [] {
      assert a + b == b;
    } else {
      assert (a + b)[1..] == a[1..] + b;
      FailedPagesAppend(a[1..], b);
    }
  }

  /** A page is listed exactly when some result for it is unsuccessful, and the list
      is empty exactly when every result is a success. */
  lemma {:induction false} FailedPagesMembers(results: seq<PageResult>)
    ensures |FailedPages(results)| <= |results|
    ensures forall x :: x in FailedPages(results) <==>
      exists i :: 0 <= i < |results| && !results[i].isSuccess && results[i].pageName == x
    ensures FailedPages(results) == [] <==> forall i :: 0 <= i < |results| ==> results[i].isSuccess
  {
    if results != [] {
      var rest := results[1..];
      FailedPagesMembers(rest);
      forall x
        ensures x in FailedPages(results) <==>
          exists i :: 0 <= i < |results| && !results[i].isSuccess && results[i].pageName == x
      {
        if x in FailedPages(rest) {
          var i :| 0 <= i < |rest| && !rest[i].isSuccess && rest[i].pageName == x;
          assert results[i + 1] == rest[i];
        }
        if exists i :: 0 <= i < |results| && !results[i].isSuccess && results[i].pageName == x {
          var i :| 0 <= i < |results| && !results[i].isSuccess && results[i].pageName == x;
          if i > 0 {
            assert rest[i - 1] == results[i];
          }
        }
      }
      if FailedPages(results) == [] {
        assert results[0].isSuccess;
        forall i | 0 <= i < |results| ensures results[i].isSuccess {
          if i > 0 { assert rest[i - 1] == results[i]; }
        }
      }
      if forall i :: 0 <= i < |results| ==> results[i].isSuccess {
        forall i | 0 <= i < |rest| ensures rest[i].isSuccess {
          assert rest[i] == results[i + 1];
        }
      }
    }
  }

  // ---------------------------------------------------------------------------
  // The whole run
  // ---------------------------------------------------------------------------

  const Catalog: seq<string> := [
    "", "company", "culture", "testimonials", "how-we-work", "contact", "case-studies",
    "services", "services/software-engineering", "services/product-development",
    "services/big-data-cloud-migration", "services/tech-client-support",
    "services/discovery-phase", "services/digital-transformation", "services/ui-ux-design",
    "services/mobile-development",
    "real-estate-software-development-services",
    "industries", "industries/scm-supply-chain-management-software-solutions",
    "industries/fintech-solutions", "industries/healthcare-software-development",
    "industries/construction-real-estate-software", "industries/retail-software-development",
    "industries/automotive-software-development",
    "blog", "blog/mobile-app-ui-design-what-to-look-out-for-in-2023",
    "careers", "careers/jobs/full-stack-engineer-java-typescript",
    "policy/privacy", "policy/cookie",
    "projects/property-management-app", "projects/hoste", "projects/cloud-structure-for-saas",
    "projects/vsb", "projects/w-health", "projects/project-web"
  ]

  /** How the script's top-level promise settles. */
  datatype Verdict =
    | InsufficientArguments                       // process.exit(1) from parseCommandLineArgs
    | SetupFailed(error: Error)                   // unknown engine, connect, newContext or newPage
    | PageAborted(pageName: string, error: Error) // validatePage rejected; the loop is abandoned
    | TeardownFailed(call: SessionStep)           // page.close() or browser.close() rejected
    | ChangesFound(failedPages: seq<string>)      // `Changes found for ...` is thrown
    | Passed                                      // the promise resolves

  /** The verdict and the session calls attempted, in order. */
  datatype Run = Run(verdict: Verdict, calls: seq<SessionStep>)

  const SetupCalls: seq<SessionStep> := [Connect, NewContext, NewSessionPage]
  const TeardownCalls: seq<SessionStep> := [ClosePage, CloseBrowser]

  /** The first `n` setup calls, the last of which threw when n < 3. */
  function Setup(session: SessionStep -> bool): nat
  {
    if session(Connect) then 1 else if session(NewContext) then 2
    else if session(NewSessionPage) then 3 else 4
  }

  /** The script's top-level async function, with the page catalog as a parameter:
      the script itself passes `Catalog`. */
  function RunScript(argv: seq<string>, pages: seq<string>, session: SessionStep -> bool, fails: (string, Step) -> bool): (r: Run)
    ensures r.verdict == InsufficientArguments <==> |argv| < 3
    ensures r.calls <= SetupCalls + TeardownCalls
  {
    match ParseArgs(argv)
    case None => Run(InsufficientArguments, [])
    case Some(args) =>
      if !IsEngine(args.browserName) then Run(SetupFailed(EngineUndefined), [])
      else
        var n := Setup(session);
        if n <= 3 then Run(SetupFailed(SessionFailed(SetupCalls[n - 1])), SetupCalls[..n])
        else PageRun(pages, session, fails)
  }

  /** Everything after the session is set up: the page loop, teardown, and the
      verdict on the failing pages. */
  function PageRun(pages: seq<string>, session: SessionStep -> bool, fails: (string, Step) -> bool): (r: Run)
    ensures SetupCalls <= r.calls <= SetupCalls + TeardownCalls
    ensures r.verdict.PageAborted? <==> Loop(pages, fails).Aborted?
    ensures r.verdict.PageAborted? ==> r.calls == SetupCalls
  {
    match Loop(pages, fails)
    case Aborted(k, e) => Run(PageAborted(pages[k], e), SetupCalls)
    case Completed(results) =>
      if session(ClosePage) then Run(TeardownFailed(ClosePage), SetupCalls + [ClosePage])
      else if session(CloseBrowser) then Run(TeardownFailed(CloseBrowser), SetupCalls + TeardownCalls)
      else
        var failed := FailedPages(results);
        if |failed| > 0 then Run(ChangesFound(failed), SetupCalls + TeardownCalls)
        else Run(Passed, SetupCalls + TeardownCalls)
  }

  /** A verdict reached after setup means arguments, engine and every setup call
      were fine, and the run is the page stage. */
  lemma RunReachesPages(argv: seq<string>, pages: seq<string>, session: SessionStep -> bool, fails: (string, Step) -> bool)
    requires !RunScript(argv, pages, session, fails).verdict.InsufficientArguments?
    requires !RunScript(argv, pages, session, fails).verdict.SetupFailed?
    ensures |argv| >= 3 && IsEngine(Lower(argv[0]))
    ensures !session(Connect) && !session(NewContext) && !session(NewSessionPage)
    ensures RunScript(argv, pages, session, fails) == PageRun(pages, session, fails)
  {
  }

  /** Too few arguments end the run before any session call. */
  lemma RunInsufficientArguments(argv: seq<string>, pages: seq<string>, session: SessionStep -> bool, fails: (string, Step) -> bool)
    ensures RunScript(argv, pages, session, fails).verdict == InsufficientArguments <==> |argv| < 3
    ensures |argv| < 3 ==> RunScript(argv, pages, session, fails).calls == []
  {
  }

  /** An engine outside the three tables makes `browserNames[browserName].connect`
      throw before the farm is contacted. */
  lemma RunUnknownEngine(argv: seq<string>, pages: seq<string>, session: SessionStep -> bool, fails: (string, Step) -> bool)
    requires |argv| >= 3 && !IsEngine(Lower(argv[0]))
    ensures RunScript(argv, pages, session, fails) == Run(SetupFailed(EngineUndefined), [])
  {
  }

  /** The run passes exactly when the engine is known, no session call throws and
      every step of every catalog page completes. */
  lemma RunPassedIff(argv: seq<string>, pages: seq<string>, session: SessionStep -> bool, fails: (string, Step) -> bool)
    ensures RunScript(argv, pages, session, fails).verdict == Passed <==>
      |argv| >= 3 && IsEngine(Lower(argv[0])) &&
      (forall c :: !session(c)) &&
      (forall i :: 0 <= i < |pages| ==> PagePasses(pages[i], fails))
  {
    var run := RunScript(argv, pages, session, fails);
    LoopMeaning(pages, fails);
    var l := Loop(pages, fails);
    if run.verdict == Passed {
      assert l.Completed?;
      FailedPagesMembers(l.results);
      forall i | 0 <= i < |pages| ensures PagePasses(pages[i], fails) {
        assert l.results[i].isSuccess;
        assert ValidatePage(pages[i], fails) == Returned(true);
      }
      forall c ensures !session(c) {
        match c
        case Connect =>
        case NewContext =>
        case NewSessionPage =>
        case ClosePage =>
        case CloseBrowser =>
      }
    }
    if |argv| >= 3 && IsEngine(Lower(argv[0])) && (forall c :: !session(c)) &&
       (forall i :: 0 <= i < |pages| ==> PagePasses(pages[i], fails))
    {
      assert !session(Connect) && !session(NewContext) && !session(NewSessionPage);
      assert !session(ClosePage) && !session(CloseBrowser);
      assert AllReturn(pages, fails);
      FailedPagesMembers(l.results);
      assert FailedPages(l.results) == [];
    }
  }

  /** When changes are reported, teardown has run, and the list names, in catalog
      order, exactly the pages whose status check alone threw. */
  lemma RunChangesFound(argv: seq<string>, pages: seq<string>, session: SessionStep -> bool, fails: (string, Step) -> bool)
    requires RunScript(argv, pages, session, fails).verdict.ChangesFound?
    ensures var run := RunScript(argv, pages, session, fails);
      run.calls == SetupCalls + TeardownCalls &&
      run.verdict.failedPages != [] &&
      (forall x :: x in run.verdict.failedPages <==> x in pages && ValidatePage(x, fails) == Returned(false)) &&
      Loop(pages, fails).Completed? &&
      run.verdict.failedPages == FailedPages(Loop(pages, fails).results)
  {
    var run := RunScript(argv, pages, session, fails);
    RunReachesPages(argv, pages, session, fails);
    LoopMeaning(pages, fails);
    var l := Loop(pages, fails);
    assert l.Completed? && run.verdict.failedPages == FailedPages(l.results);
    var failed := run.verdict.failedPages;
    var rs := l.results;
    assert ResultsOf(pages, fails, rs);
    FailedPagesMembers(rs);
    forall x ensures x in failed <==> x in pages && ValidatePage(x, fails) == Returned(false) {
      if x in failed {
        var i :| 0 <= i < |rs| && !rs[i].isSuccess && rs[i].pageName == x;
        assert pages[i] == x;
      }
      if x in pages && ValidatePage(x, fails) == Returned(false) {
        var i :| 0 <= i < |pages| && pages[i] == x;
        assert !rs[i].isSuccess && rs[i].pageName == x;
      }
    }
  }

  /** A rejection of validatePage abandons the loop at the first rejecting page and
      the teardown never runs: neither the page nor the browser is closed. */
  lemma RunAbortSkipsTeardown(argv: seq<string>, pages: seq<string>, session: SessionStep -> bool, fails: (string, Step) -> bool)
    requires RunScript(argv, pages, session, fails).verdict.PageAborted?
    ensures var run := RunScript(argv, pages, session, fails);
      ClosePage !in run.calls && CloseBrowser !in run.calls &&
      Loop(pages, fails).Aborted? &&
      run.verdict.pageName == pages[Loop(pages, fails).index] &&
      AbortsAt(pages, fails, Loop(pages, fails).index, run.verdict.error)
  {
    RunReachesPages(argv, pages, session, fails);
    LoopMeaning(pages, fails);
  }

  /** After a good setup, a validation that rejects aborts the run at the first
      rejecting page, with its error, and skips the teardown. */
  lemma RunAbortsOnRejection(argv: seq<string>, pages: seq<string>, session: SessionStep -> bool, fails: (string, Step) -> bool)
    requires |argv| >= 3 && IsEngine(Lower(argv[0]))
    requires !session(Connect) && !session(NewContext) && !session(NewSessionPage)
    requires !AllReturn(pages, fails)
    ensures var run := RunScript(argv, pages, session, fails);
      run.verdict.PageAborted? && run.calls == SetupCalls &&
      ClosePage !in run.calls && CloseBrowser !in run.calls &&
      AbortsAt(pages, fails, Loop(pages, fails).index, run.verdict.error) &&
      run.verdict.pageName == pages[Loop(pages, fails).index]
  {
    LoopMeaning(pages, fails);
  }

  /** After a good setup and teardown, a run in which no validation rejects and some
      status check throws reports changes. */
  lemma RunReportsChanges(argv: seq<string>, pages: seq<string>, session: SessionStep -> bool, fails: (string, Step) -> bool)
    requires |argv| >= 3 && IsEngine(Lower(argv[0]))
    requires forall c :: !session(c)
    requires AllReturn(pages, fails)
    requires exists i :: 0 <= i < |pages| && ValidatePage(pages[i], fails) == Returned(false)
    ensures RunScript(argv, pages, session, fails).verdict.ChangesFound?
  {
    assert !session(Connect) && !session(NewContext) && !session(NewSessionPage);
    assert Setup(session) == 4;
    assert ParseArgs(argv).value.browserName == Lower(argv[0]);
    assert RunScript(argv, pages, session, fails) == PageRun(pages, session, fails);
    var i :| 0 <= i < |pages| && ValidatePage(pages[i], fails) == Returned(false);
    PageRunReportsChanges(pages, session, fails, i);
  }

  lemma PageRunReportsChanges(pages: seq<string>, session: SessionStep -> bool, fails: (string, Step) -> bool, i: nat)
    requires !session(ClosePage) && !session(CloseBrowser)
    requires AllReturn(pages, fails)
    requires i < |pages| && ValidatePage(pages[i], fails) == Returned(false)
    ensures PageRun(pages, session, fails).verdict.ChangesFound?
  {
    LoopMeaning(pages, fails);
    var l := Loop(pages, fails);
    FailedPagesMembers(l.results);
    assert !l.results[i].isSuccess;
  }

  /** With the catalog ["", "company"], a navigation error on "company" does not
      become a failing page: it abandons the loop after "" has passed. */
  lemma NavigationErrorAbortsLoop()
    ensures Loop(["", "company"], (p: string, s: Step) => p == "company" && s == Goto) == Aborted(1, StepFailed(Goto))
  {
    var f := (p: string, s: Step) => p == "company" && s == Goto;
    assert ValidatePage("", f) == Returned(true);
    assert ["", "company"][1..] == ["company"];
    assert ValidatePage("company", f) == Rejected(StepFailed(Goto)) by {
      assert FirstFailure(PageSteps, s => f("company", s)) == 0;
    }
  }

  /** The catalog lists every page once, so no screenshot artifact is written twice. */
  lemma CatalogDistinct()
    ensures Distinct(Catalog)
    ensures Distinct(seq(|Catalog|, i requires 0 <= i < |Catalog| => ScreenshotName(Catalog[i])))
  {
    CatalogHeadDistinct();
    CatalogMiddleDistinct();
    CatalogTailDistinct();
    DistinctScreenshotNames(Catalog);
  }

  /** None of the first nine pages occurs again later in the catalog. */
  lemma CatalogHeadDistinct()
    ensures forall i, j :: 0 <= i < 9 && i < j < |Catalog| ==> Catalog[i] != Catalog[j]
  {
  }

  /** Nor does any of the next nine. */
  lemma CatalogMiddleDistinct()
    ensures forall i, j :: 9 <= i < 18 && i < j < |Catalog| ==> Catalog[i] != Catalog[j]
  {
  }

  /** The last eighteen pages are pairwise different. */
  lemma CatalogTailDistinct()
    ensures forall i, j :: 18 <= i < j < |Catalog| ==> Catalog[i] != Catalog[j]
  {
  }
}
