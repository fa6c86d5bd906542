/** The parallel SmartUI run (playwright-paralel.js): every capability of a fixed list
    is patched in place with the baseline flag and the project name, then each opens
    its own farm session and validates the page list concurrently on one context. The
    exit code depends only on which capability runs reject. */
module Parallel {
  import opened Shared

  // ---------------------------------------------------------------------------
  // Command line
  // ---------------------------------------------------------------------------

  datatype Args = Args(screenSize: string, isBaseline: bool)

  /** `argv` is process.argv without the interpreter and the script path. None is the
      usage error that ends the process with exit code 1. */
  function ParseArgs(argv: seq<string>): (r: Option<Args>)
    ensures r.None? <==> |argv| < 2
  {
    if |argv| < 2 then None
    else Some(Args(Lower(argv[0]), Lower(argv[1]) == "true"))
  }

  /** The size is the first argument in lower case, the baseline flag is set exactly
      by a spelling of "true", and later arguments are ignored. */
  lemma ParseArgsMeaning(argv: seq<string>)
    requires |argv| >= 2
    ensures ParseArgs(argv).Some?
    ensures ParseArgs(argv).value.screenSize == Lower(argv[0])
    ensures IsLowerCase(ParseArgs(argv).value.screenSize)
    ensures ParseArgs(argv).value.isBaseline <==> SpellsTrue(argv[1])
    ensures ParseArgs(argv) == ParseArgs(argv[..2])
  {
    LowerIsLowerCase(argv[0]);
    LowerEqualsTrueIff(argv[1]);
  }

  // ---------------------------------------------------------------------------
  // Capabilities, as values and as the mutable objects the script patches
  // ---------------------------------------------------------------------------

  datatype OptionsValue = OptionsValue(
    platform: string,
    build: string,
    name: string,
    user: Option<string>,
    accessKey: Option<string>,
    network: bool,
    video: bool,
    console: bool,
    playwrightClientVersion: Option<string>,
    smartUIBaseline: Option<bool>,
    smartUIProjectName: Option<string>)

  datatype CapabilityValue = CapabilityValue(browserName: string, browserVersion: string, options: OptionsValue)

  /** LT_USERNAME and LT_ACCESS_KEY from process.env; None is undefined. */
  datatype Credentials = Credentials(user: Option<string>, accessKey: Option<string>)

  /** The CAPABILITIES list: one Chrome session on Windows 10. `clientVersion` is the
      version printed by `npx playwright --version`. */
  function InitialCapabilities(credentials: Credentials, clientVersion: Option<string>): (caps: seq<CapabilityValue>)
    ensures |caps| == 1
    ensures forall c :: c in caps ==>
      c.options.smartUIBaseline.None? && c.options.smartUIProjectName.None? &&
      c.options.user == credentials.user && c.options.accessKey == credentials.accessKey &&
      c.options.playwrightClientVersion == clientVersion
  {
    [CapabilityValue("Chrome", "latest", OptionsValue(
      "Windows 10",
      "Playwright With Parallel Build",
      "Playwright Sample Test on Windows 10 - Chrome",
      credentials.user,
      credentials.accessKey,
      true, true, true,
      clientVersion,
      None,
      None))]
  }

  /** The `LT:Options` object of a capability. */
  class LtOptions {
    var platform: string
    var build: string
    var name: string
    var user: Option<string>
    var accessKey: Option<string>
    var network: bool
    var video: bool
    var console: bool
    var playwrightClientVersion: Option<string>
    var smartUIBaseline: Option<bool>
    var smartUIProjectName: Option<string>

    constructor (v: OptionsValue)
      ensures Value() == v
    {
      platform, build, name := v.platform, v.build, v.name;
      user, accessKey := v.user, v.accessKey;
      network, video, console := v.network, v.video, v.console;
      playwrightClientVersion := v.playwrightClientVersion;
      smartUIBaseline, smartUIProjectName := v.smartUIBaseline, v.smartUIProjectName;
    }

    function Value(): OptionsValue
      reads this
    {
      OptionsValue(platform, build, name, user, accessKey, network, video, console,
                   playwrightClientVersion, smartUIBaseline, smartUIProjectName)
    }

    /** The two assignments of the mapping callback. */
    method SetSmartUi(isBaseline: bool)
      modifies this
      ensures Value() == PatchOptions(old(Value()), isBaseline)
    {
      smartUIBaseline := Some(isBaseline);
      smartUIProjectName := Some("erbis");
    }
  }

  /** A capability object; only its `LT:Options` object is ever written. */
  class Capability {
    const browserName: string
    const browserVersion: string
    const options: LtOptions

    constructor (v: CapabilityValue)
      ensures Value() == v && fresh(options)
    {
      browserName, browserVersion := v.browserName, v.browserVersion;
      options := new LtOptions(v.options);
    }

    function Value(): CapabilityValue
      reads options
    {
      CapabilityValue(browserName, browserVersion, options.Value())
    }
  }

  /** The script's single capability, once mapped, keeps its Chrome session and test
      name and carries the baseline flag and the "erbis" project. */
  lemma InitialCapabilitiesPatched(credentials: Credentials, clientVersion: Option<string>, isBaseline: bool)
    ensures var caps := PatchAll(InitialCapabilities(credentials, clientVersion), isBaseline);
      |caps| == 1 &&
      caps[0].browserName == "Chrome" && caps[0].browserVersion == "latest" &&
      caps[0].options.name == "Playwright Sample Test on Windows 10 - Chrome" &&
      caps[0].options.user == credentials.user && caps[0].options.accessKey == credentials.accessKey &&
      caps[0].options.playwrightClientVersion == clientVersion &&
      caps[0].options.smartUIBaseline == Some(isBaseline) &&
      caps[0].options.smartUIProjectName == Some("erbis")
  {
  }

  /** The objects a list of capabilities lets the script write. */
  function Footprint(caps: seq<Capability>): set<LtOptions>
  {
    set c | c in caps :: c.options
  }

  function Values(caps: seq<Capability>): (vs: seq<CapabilityValue>)
    reads Footprint(caps)
    ensures |vs| == |caps|
  {
    seq(|caps|, i requires 0 <= i < |caps| reads Footprint(caps) => caps[i].Value())
  }

  /** What the mapping callback does to one capability. */
  function PatchOptions(o: OptionsValue, isBaseline: bool): (r: OptionsValue)
    ensures r.smartUIBaseline == Some(isBaseline)
    ensures r.smartUIProjectName == Some("erbis")
  {
    o.(smartUIBaseline := Some(isBaseline), smartUIProjectName := Some("erbis"))
  }

  function Patch(v: CapabilityValue, isBaseline: bool): (r: CapabilityValue)
    ensures r.options.smartUIBaseline == Some(isBaseline)
    ensures r.options.smartUIProjectName == Some("erbis")
  {
    v.(options := PatchOptions(v.options, isBaseline))
  }

  function PatchAll(vs: seq<CapabilityValue>, isBaseline: bool): (rs: seq<CapabilityValue>)
    ensures |rs| == |vs|
  {
    seq(|vs|, i requires 0 <= i < |vs| => Patch(vs[i], isBaseline))
  }

  /** The patch sets the two SmartUI fields and nothing else, and patching twice is
      patching once. */
  lemma PatchMeaning(v: CapabilityValue, isBaseline: bool)
    ensures var r := Patch(v, isBaseline);
      r.browserName == v.browserName && r.browserVersion == v.browserVersion &&
      r.options.platform == v.options.platform && r.options.build == v.options.build &&
      r.options.name == v.options.name && r.options.user == v.options.user &&
      r.options.accessKey == v.options.accessKey && r.options.network == v.options.network &&
      r.options.video == v.options.video && r.options.console == v.options.console &&
      r.options.playwrightClientVersion == v.options.playwrightClientVersion
    ensures Patch(Patch(v, isBaseline), isBaseline) == Patch(v, isBaseline)
    ensures v.options.smartUIBaseline == Some(isBaseline) && v.options.smartUIProjectName == Some("erbis") ==>
      Patch(v, isBaseline) == v
  {
  }

  /** An options object is either untouched or patched. */
  predicate PatchedOrNot(before: OptionsValue, now: OptionsValue, isBaseline: bool)
  {
    now == before || now == PatchOptions(before, isBaseline)
  }

  /** capabilities.map(capability => { ...; return capability; }): the same objects
      in the same order, each one's options patched in place. Objects shared between
      entries are patched alike. */
  method MapCapabilities(caps: seq<Capability>, isBaseline: bool) returns (mapped: seq<Capability>)
    modifies Footprint(caps)
    ensures mapped == caps
    ensures Values(caps) == PatchAll(old(Values(caps)), isBaseline)
  {
    var i := 0;
    while i < |caps|
      invariant 0 <= i <= |caps|
      invariant forall o :: o in Footprint(caps) ==> PatchedOrNot(old(o.Value()), o.Value(), isBaseline)
      invariant forall j :: 0 <= j < i ==> caps[j].options.Value() == PatchOptions(old(caps[j].options.Value()), isBaseline)
    {
      caps[i].options.SetSmartUi(isBaseline);
      i := i + 1;
    }
    mapped := caps;
    forall i | 0 <= i < |caps|
      ensures Values(caps)[i] == PatchAll(old(Values(caps)), isBaseline)[i]
    {
      assert caps[i] in caps;
      assert old(Values(caps))[i] == old(caps[i].Value());
    }
  }

  // ---------------------------------------------------------------------------
  // Validation of one page
  // ---------------------------------------------------------------------------

  const PageNames: seq<string> := ["", "company", "culture"]

  /** The awaited steps of validatePage in order, all inside one try. */
  const PageSteps: seq<Step> := [NewPage, Goto, DeleteWidget, Screenshot, TakeScreenshot, ValidateScreenshot]

  /** Every step of the page completes under the given capability. */
  predicate PagePasses(capabilityName: string, pageName: string, fails: (string, string, Step) -> bool)
  {
    !fails(capabilityName, pageName, NewPage) && !fails(capabilityName, pageName, Goto) &&
    !fails(capabilityName, pageName, DeleteWidget) && !fails(capabilityName, pageName, Screenshot) &&
    !fails(capabilityName, pageName, TakeScreenshot) && !fails(capabilityName, pageName, ValidateScreenshot)
  }

  /** validatePage(context, capabilityName, pageName): true after every step; on any
      error the catch block calls `page.close()`, but `page` was declared inside the
      try block, so that call throws a ReferenceError and the promise rejects. It never
      settles to false. */
  function ValidatePage(capabilityName: string, pageName: string, fails: (string, string, Step) -> bool): (r: Validation)
    ensures r == Returned(true) <==> PagePasses(capabilityName, pageName, fails)
    ensures r.Rejected? <==> !PagePasses(capabilityName, pageName, fails)
    ensures r != Returned(false)
    ensures r.Rejected? ==> r.error == PageNotDefined
  {
    var k := FirstFailure(PageSteps, s => fails(capabilityName, pageName, s));
    if k == |PageSteps| then Returned(true) else Rejected(PageNotDefined)
  }

  /** PAGE_NAMES.map(pageName => validatePage(context, capabilityName, pageName)):
      one validation per page, in list order, all started together. */
  function FanOut(capabilityName: string, fails: (string, string, Step) -> bool): (vs: seq<Validation>)
    ensures |vs| == |PageNames|
    ensures forall i :: 0 <= i < |vs| ==> (vs[i] == Returned(true) <==> PagePasses(capabilityName, PageNames[i], fails))
    ensures forall i :: 0 <= i < |vs| ==> (vs[i].Rejected? <==> !PagePasses(capabilityName, PageNames[i], fails))
  {
    seq(|PageNames|, i requires 0 <= i < |PageNames| => ValidatePage(capabilityName, PageNames[i], fails))
  }

  // ---------------------------------------------------------------------------
  // Promise.all
  // ---------------------------------------------------------------------------

  datatype Settled = AllFulfilled(values: seq<bool>) | SomeRejected(error: Error)

  /** Promise.all over already-started validations. Which rejection it reports first
      is a matter of timing; this takes the first in list order. */
  function PromiseAll(vs: seq<Validation>): (r: Settled)
    ensures r.AllFulfilled? ==> |r.values| == |vs|
  {
    if vs == [] then AllFulfilled([])
    else
      match vs[0]
      case Rejected(e) => SomeRejected(e)
      case Returned(ok) =>
        match PromiseAll(vs[1..])
        case AllFulfilled(rest) => AllFulfilled([ok] + rest)
        case SomeRejected(e) => SomeRejected(e)
  }

  /** Promise.all fulfils exactly when every element fulfils, with their values in
      order; otherwise it rejects with the error of one of the rejected elements. */
  lemma {:induction false} PromiseAllMeaning(vs: seq<Validation>)
    ensures PromiseAll(vs).AllFulfilled? <==> forall i :: 0 <= i < |vs| ==> vs[i].Returned?
    ensures PromiseAll(vs).AllFulfilled? ==>
      |PromiseAll(vs).values| == |vs| &&
      forall i :: 0 <= i < |vs| ==> vs[i] == Returned(PromiseAll(vs).values[i])
    ensures PromiseAll(vs).SomeRejected? ==> exists i :: 0 <= i < |vs| && vs[i] == Rejected(PromiseAll(vs).error)
  {
    if vs != [] {
      var rest := vs[1..];
      PromiseAllMeaning(rest);
      var p := PromiseAll(vs);
      if vs[0].Returned? {
        var pr := PromiseAll(rest);
        if pr.AllFulfilled? {
          assert p == AllFulfilled([vs[0].ok] + pr.values);
          forall i | 0 <= i < |vs| ensures vs[i] == Returned(p.values[i]) {
            if i > 0 { assert vs[i] == rest[i - 1] && p.values[i] == pr.values[i - 1]; }
          }
        } else {
          var i :| 0 <= i < |rest| && rest[i] == Rejected(pr.error);
          assert vs[i + 1] == rest[i];
        }
      } else {
        assert vs[0] == Rejected(p.error);
      }
    }
  }

  // ---------------------------------------------------------------------------
  // One capability
  // ---------------------------------------------------------------------------

  /** How runTest settles, the session calls it made in order, and how the page
      fan-out settled when it was reached. */
  datatype TestRun = TestRun(resolved: bool, calls: seq<SessionStep>, pages: Option<Settled>)

  /** runTest(args, capability). `session(c, s)` says whether session call `s` of the
      capability `c` throws. */
  function RunTest(capability: CapabilityValue, session: (CapabilityValue, SessionStep) -> bool,
                   fails: (string, string, Step) -> bool): (r: TestRun)
    ensures r.calls <= [Connect, NewContext, CloseBrowser]
    ensures r.pages.Some? <==> !session(capability, Connect) && !session(capability, NewContext)
    ensures CloseBrowser in r.calls <==> r.pages.Some? && r.pages.value.SomeRejected?
  {
    if session(capability, Connect) then TestRun(false, [Connect], None)
    else if session(capability, NewContext) then TestRun(false, [Connect, NewContext], None)
    else
      var settled := PromiseAll(FanOut(capability.options.name, fails));
      if settled.AllFulfilled? then TestRun(true, [Connect, NewContext], Some(settled))
      else if session(capability, CloseBrowser) then TestRun(false, [Connect, NewContext, CloseBrowser], Some(settled))
      else TestRun(true, [Connect, NewContext, CloseBrowser], Some(settled))
  }

  /** After setup, the fan-out fulfils exactly when every page passes, and then every
      logged page result is true. */
  lemma FanOutMeaning(capabilityName: string, fails: (string, string, Step) -> bool)
    ensures PromiseAll(FanOut(capabilityName, fails)).AllFulfilled? <==>
      forall i :: 0 <= i < |PageNames| ==> PagePasses(capabilityName, PageNames[i], fails)
    ensures PromiseAll(FanOut(capabilityName, fails)).AllFulfilled? ==>
      PromiseAll(FanOut(capabilityName, fails)).values == [true, true, true]
    ensures PromiseAll(FanOut(capabilityName, fails)).SomeRejected? ==>
      PromiseAll(FanOut(capabilityName, fails)).error == PageNotDefined
  {
    var vs := FanOut(capabilityName, fails);
    PromiseAllMeaning(vs);
    var p := PromiseAll(vs);
    if p.AllFulfilled? {
      assert vs[0] == Returned(p.values[0]) && vs[1] == Returned(p.values[1]) && vs[2] == Returned(p.values[2]);
    }
    if forall i :: 0 <= i < |PageNames| ==> PagePasses(capabilityName, PageNames[i], fails) {
      assert forall i :: 0 <= i < |vs| ==> vs[i].Returned?;
    }
  }

  /** Some page of the capability has a step that throws. */
  predicate AnyPageFails(capabilityName: string, fails: (string, string, Step) -> bool)
  {
    exists i :: 0 <= i < |PageNames| && !PagePasses(capabilityName, PageNames[i], fails)
  }

  /** runTest rejects exactly when connect or newContext throws, or when a page fails
      and closing the browser then throws too. The browser is closed only on the
      rejection path of the fan-out. */
  lemma RunTestMeaning(capability: CapabilityValue, session: (CapabilityValue, SessionStep) -> bool,
                       fails: (string, string, Step) -> bool)
    ensures var name := capability.options.name;
      !RunTest(capability, session, fails).resolved <==>
        session(capability, Connect) ||
        (!session(capability, Connect) && session(capability, NewContext)) ||
        (!session(capability, Connect) && !session(capability, NewContext) &&
         AnyPageFails(name, fails) && session(capability, CloseBrowser))
    ensures CloseBrowser in RunTest(capability, session, fails).calls <==>
      !session(capability, Connect) && !session(capability, NewContext) && AnyPageFails(capability.options.name, fails)
  {
    FanOutMeaning(capability.options.name, fails);
  }

  // ---------------------------------------------------------------------------
  // The whole run
  // ---------------------------------------------------------------------------

  /** The exit code of `runTests(CAPABILITIES).then(exit 0).catch(exit 1)` for the
      capabilities as they are before the mapping. */
  function ExitCode(argv: seq<string>, caps: seq<CapabilityValue>,
                    session: (CapabilityValue, SessionStep) -> bool, fails: (string, string, Step) -> bool): (code: int)
    ensures code == 0 || code == 1
    ensures |argv| < 2 ==> code == 1
  {
    match ParseArgs(argv)
    case None => 1
    case Some(args) =>
      var mapped := PatchAll(caps, args.isBaseline);
      if forall i :: 0 <= i < |mapped| ==> RunTest(mapped[i], session, fails).resolved then 0 else 1
  }

  /** runTest resolves for this capability: connect and newContext complete, and
      closing the browser completes whenever a page fails. */
  predicate RunResolves(capability: CapabilityValue, session: (CapabilityValue, SessionStep) -> bool,
                        fails: (string, string, Step) -> bool)
  {
    !session(capability, Connect) && !session(capability, NewContext) &&
    (AnyPageFails(capability.options.name, fails) ==> !session(capability, CloseBrowser))
  }

  /** The script exits 0 exactly when the arguments are present and, for every
      patched capability, connect and newContext complete and closing the browser
      completes whenever one of its pages fails. */
  lemma ExitCodeMeaning(argv: seq<string>, caps: seq<CapabilityValue>,
                        session: (CapabilityValue, SessionStep) -> bool, fails: (string, string, Step) -> bool)
    ensures ExitCode(argv, caps, session, fails) == 0 <==>
      |argv| >= 2 &&
      forall i :: 0 <= i < |caps| ==> RunResolves(Patch(caps[i], Lower(argv[1]) == "true"), session, fails)
  {
    if |argv| >= 2 {
      var b := Lower(argv[1]) == "true";
      assert ParseArgs(argv) == Some(Args(Lower(argv[0]), b));
      var mapped := PatchAll(caps, b);
      forall i | 0 <= i < |caps|
        ensures RunTest(mapped[i], session, fails).resolved <==> RunResolves(Patch(caps[i], b), session, fails)
      {
        assert mapped[i] == Patch(caps[i], b);
        RunTestMeaning(mapped[i], session, fails);
      }
    }
  }

  /** Failing pages never fail the run: when every patched capability connects, gets
      its context and can close its browser, the exit code is 0 whatever the pages do. */
  lemma PageFailuresDoNotFailRun(argv: seq<string>, caps: seq<CapabilityValue>,
                                 session: (CapabilityValue, SessionStep) -> bool, fails: (string, string, Step) -> bool)
    requires |argv| >= 2
    requires forall i :: 0 <= i < |caps| ==>
      !session(Patch(caps[i], Lower(argv[1]) == "true"), Connect) &&
      !session(Patch(caps[i], Lower(argv[1]) == "true"), NewContext) &&
      !session(Patch(caps[i], Lower(argv[1]) == "true"), CloseBrowser)
    ensures ExitCode(argv, caps, session, fails) == 0
  {
    ExitCodeMeaning(argv, caps, session, fails);
  }

  /** A capability whose connect throws makes the exit code 1, whatever the others do. */
  lemma ConnectFailureFailsRun(argv: seq<string>, caps: seq<CapabilityValue>, k: nat,
                               session: (CapabilityValue, SessionStep) -> bool, fails: (string, string, Step) -> bool)
    requires |argv| >= 2 && k < |caps|
    requires session(Patch(caps[k], Lower(argv[1]) == "true"), Connect)
    ensures ExitCode(argv, caps, session, fails) == 1
  {
    var mapped := PatchAll(caps, Lower(argv[1]) == "true");
    assert !RunTest(mapped[k], session, fails).resolved;
  }

  /** runTests as the script runs it: argument parsing, the in-place mapping of the
      capability objects, and the run of every mapped capability. */
  method RunTests(caps: seq<Capability>, argv: seq<string>,
                  session: (CapabilityValue, SessionStep) -> bool, fails: (string, string, Step) -> bool)
    returns (exitCode: int)
    modifies Footprint(caps)
    ensures exitCode == ExitCode(argv, old(Values(caps)), session, fails)
    ensures |argv| < 2 ==> Values(caps) == old(Values(caps))
    ensures |argv| >= 2 ==> Values(caps) == PatchAll(old(Values(caps)), Lower(argv[1]) == "true")
  {
    var parsed := ParseArgs(argv);
    if parsed.None? {
      return 1;
    }
    var mapped := MapCapabilities(caps, parsed.value.isBaseline);
    var values := Values(mapped);
    var allResolved := forall i :: 0 <= i < |values| ==> RunTest(values[i], session, fails).resolved;
    exitCode := if allResolved then 0 else 1;
  }
}
