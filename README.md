# Erbis visual regression scripts, modelled in Dafny

The repository has two Node.js scripts. Both drive a remote Playwright browser on the
LambdaTest farm, take full-page screenshots of pages of https://erbis.com/ and have
SmartUI, LambdaTest's visual-diff service, compare each screenshot with a baseline.

* `playwright-smartui.js` (module `SmartUi`) takes a browser engine, a screen size and a
  baseline flag on the command line. It builds one capability descriptor from lookup
  tables and opens one session. It validates the 36 catalog pages one after another on
  a single page handle, tears the session down, and throws `Changes found for ...` when
  a page's status check failed.
* `playwright-paralel.js` (module `Parallel`) takes a screen size and a baseline flag.
  It patches every capability of a fixed list in place with the baseline flag and the
  project name `erbis`. Each capability then gets its own session, and three pages are
  validated concurrently on one context. The process exits 0 exactly when every
  capability's run resolves.
* Module `Shared` holds what both scripts use: ASCII lower-casing, the viewport table,
  the steps of a page validation, the error values, and the URL and screenshot name
  derived from a page path, each with its inverse.

Playwright, the farm and SmartUI are oracles. `fails(page, step)` says whether an
awaited page step throws. In the parallel script it also takes the capability name:
`fails(capabilityName, page, step)`. `session(step)` says whether a call on the session
itself throws (`connect`, `newContext`, `newPage`, `page.close`, `browser.close`); in
the parallel script it also takes the capability. Each script is a function of its
arguments and these oracles. The imperative parts are methods:

* the scroll loop of `forceLazyImagesLoad`, specified by the closed form of the
  positions it visits;
* the sequential results loop, proved equal to the function `SmartUi.Loop`;
* the in-place capability mapping, a class `Capability` whose `LtOptions` object is
  written, specified by the patch of the old values;
* the parallel `runTests`, whose exit code is proved equal to `Parallel.ExitCode`.

The code differs from a reading of the scripts in which every per-page error is caught
and reported as a failed page:

* In `playwright-smartui.js`, only the final status check (`validateSmartUIScreenshots`)
  sits inside a `try`. A throw from navigation, the widget removal, the scrolling or
  the screenshot rejects `validatePage`. That abandons the loop and skips the teardown.
  `SmartUi.RunAbortsOnRejection` states this for any run whose setup succeeded;
  `SmartUi.RunAbortSkipsTeardown` states the converse and `SmartUi.NavigationErrorAbortsLoop`
  gives a concrete case.
* In `playwright-paralel.js`, the `catch` of `validatePage` calls `page.close()`. `page`
  is a `const` declared inside the `try` block, so that call throws a `ReferenceError`.
  The validation therefore never settles to `false`: it either returns `true` or
  rejects. Per-page results are only logged, so only session failures decide the exit
  code. `Parallel.ValidatePage` and `Parallel.PageFailuresDoNotFailRun` state this.

The model follows the code in both places.

## Model

| member | source | states |
|---|---|---|
| Shared.Lower | playwright-smartui.js:33-35 | lower-casing keeps the length and leaves no upper-case ASCII letter |
| Shared.LowerIsLowerCase | playwright-smartui.js:33-34 | every character is kept or is an upper-case letter replaced by its lower-case form (with the previous row this fixes the result), and lower-casing is idempotent |
| Shared.LowerEqualsTrueIff | playwright-smartui.js:35 | `x.toLowerCase() === 'true'` holds exactly for the spellings of "true" in any mix of cases, letter by letter; playwright-paralel.js:183 makes the same test |
| Shared.ScreenResolution | playwright-smartui.js:21-24 | a viewport exists exactly for "mobile" and "desktop"; the mobile one is portrait and the desktop one landscape (the body holds the sizes 390x844 and 1920x1080); playwright-paralel.js:6-9 is the same table |
| Shared.FirstFailure | playwright-smartui.js:162-191 | the awaited steps run in order: the result is the first throwing step, none before it throws, and it is the length when none throws |
| Shared.PageUrl | playwright-smartui.js:162 | the page path can be read back from the URL it is visited at; playwright-paralel.js:77 builds the same URL |
| Shared.ScreenshotName | playwright-smartui.js:167 | the page path can be read back from its screenshot name; playwright-paralel.js:81 builds the same name |
| Shared.UrlRoundTrip | playwright-smartui.js:162 | `https://erbis.com/<page>/` gives back its page path, and a string gives back a page path exactly when it is that page's URL; playwright-paralel.js:77 builds the same URL |
| Shared.ScreenshotNameRoundTrip | playwright-smartui.js:167 | `erbis-<page>-page` gives back its page path, and a name gives back a page path exactly when it is that page's name; playwright-paralel.js:81 builds the same name |
| Shared.NamesInjective | playwright-smartui.js:162-167 | different page paths give different URLs and different screenshot names |
| Shared.DistinctScreenshotNames | playwright-smartui.js:167-175 | a page list without repeats writes every screenshot file under its own name |
| SmartUi.ParseArgs | playwright-smartui.js:26-38 | parsing fails (process.exit(1)) exactly when fewer than three arguments are given |
| SmartUi.ParseArgsMeaning | playwright-smartui.js:33-37 | engine and size are the first two arguments lower-cased (and so contain no upper-case letter), the baseline flag is set exactly by a spelling of "true", and extra arguments are ignored |
| SmartUi.GetSmartUIProjectName | playwright-smartui.js:90-102 | the project name is defined only for a key of the table, and is then one of the table's project names |
| SmartUi.ProjectNameDefinedIff | playwright-smartui.js:90-102 | the SmartUI project name is defined exactly for the six engine/size pairs, whatever underscores the arguments contain among the table's own keys (inherited keys: see SmartUi.Get under Left out), and is "chrome_<size>" for chromium and "<engine>_<size>" otherwise |
| SmartUi.ProjectNamesDistinct | playwright-smartui.js:91-98 | different engine/size pairs get different project names |
| SmartUi.BuildCapability | playwright-smartui.js:70-88 | browserName and platform are defined exactly for a known engine; a project name only comes with a known engine; the baseline flag is passed through |
| SmartUi.CapabilityOfEngine | playwright-smartui.js:9-19 | per engine: Chrome, pw-firefox or pw-webkit with version latest, on Windows 10, Windows 10 or MacOS Ventura; a project name exactly for a known size |
| SmartUi.CapabilityNamesDistinct | playwright-smartui.js:76 | two sessions share the name `SmartUI Test <engine> <size>` only when their engines (without spaces) and sizes agree |
| SmartUi.ForceLazyImagesLoad | playwright-smartui.js:53-63 | the scroll positions are 0, 100, 200, ... below the document height: ceil(height/100) of them, each multiple of 100 below the height included, then a scroll back to 0 |
| SmartUi.ValidatePage | playwright-smartui.js:159-221 | true when every step completes; false exactly when only the status check throws; a rejection exactly when a step before the status check throws |
| SmartUi.ValidatePageRejection | playwright-smartui.js:162-186 | a rejection carries the error of the first throwing step before the status check, and no earlier step threw |
| SmartUi.Loop | playwright-smartui.js:137-141 | an abandoned loop stops at an index of the page list |
| SmartUi.LoopMeaning | playwright-smartui.js:137-141 | the loop completes exactly when no validation rejects, with one result per page in order carrying its verdict; otherwise it stops at the first rejecting page with that error |
| SmartUi.LoopDetermined | playwright-smartui.js:137-141 | any outcome meeting that description is the loop's outcome |
| SmartUi.CollectResults | playwright-smartui.js:137-141 | the imperative loop that pushes into `results` computes exactly `Loop` |
| SmartUi.FailedPages | playwright-smartui.js:145-147 | the failing pages are at most as many as the results |
| SmartUi.FailedPagesAppend | playwright-smartui.js:145-147 | the filter/map of failing pages keeps order: it distributes over concatenation |
| SmartUi.FailedPagesMembers | playwright-smartui.js:145-149 | a page is listed exactly when some result for it is unsuccessful; the list is empty exactly when every result succeeded |
| SmartUi.RunScript | playwright-smartui.js:65-152 | the usage error occurs exactly with fewer than three arguments, and the session calls made are always a prefix of connect, newContext, newPage, page.close, browser.close |
| SmartUi.PageRun | playwright-smartui.js:137-152 | after setup, the calls are the three setup calls followed by a prefix of the teardown; the run aborts exactly when the loop does, and then no teardown call is made |
| SmartUi.RunInsufficientArguments | playwright-smartui.js:26-31 | the run ends with the usage error exactly when fewer than three arguments are given, before any session call |
| SmartUi.RunUnknownEngine | playwright-smartui.js:104 | an engine outside the table makes `connect` on undefined throw before the farm is contacted |
| SmartUi.RunReachesPages | playwright-smartui.js:65-116 | any verdict past setup implies valid arguments, a known engine and successful connect, newContext and newPage |
| SmartUi.RunPassedIff | playwright-smartui.js:65-157 | the run resolves exactly when the engine is known, no session call throws and every step of every page completes |
| SmartUi.RunChangesFound | playwright-smartui.js:143-151 | `Changes found` comes after the full teardown, and lists, in catalog order, exactly the pages whose status check alone threw |
| SmartUi.RunAbortSkipsTeardown | playwright-smartui.js:137-143 | a rejecting validation abandons the loop at the first rejecting page, and neither the page nor the browser is closed |
| SmartUi.RunAbortsOnRejection | playwright-smartui.js:137-143 | with good arguments, a known engine and a good setup, a page whose validation rejects aborts the run at the first rejecting page with its error, and neither the page nor the browser is closed |
| SmartUi.RunReportsChanges | playwright-smartui.js:143-151 | with good arguments, a known engine, no session call throwing and no validation rejecting, a page whose status check throws makes the run report changes |
| SmartUi.PageRunReportsChanges | playwright-smartui.js:145-151 | the same for the page stage once the teardown completes |
| SmartUi.NavigationErrorAbortsLoop | playwright-smartui.js:138-139 | with pages "" and "company", a navigation error on "company" aborts the loop at index 1 instead of recording a failed page |
| SmartUi.CatalogDistinct | playwright-smartui.js:118-135 | the 36 catalog pages are pairwise different, and so are their screenshot names |
| Parallel.ParseArgs | playwright-paralel.js:175-186 | parsing fails (process.exit(1)) exactly when fewer than two arguments are given |
| Parallel.ParseArgsMeaning | playwright-paralel.js:182-185 | the size is the first argument lower-cased (and so contains no upper-case letter), the baseline flag is set exactly by a spelling of "true", and extra arguments are ignored |
| Parallel.InitialCapabilities | playwright-paralel.js:11-26 | the list holds one capability, with the environment's credentials and the client version, and with no SmartUI field set yet |
| Parallel.InitialCapabilitiesPatched | playwright-paralel.js:11-26 | the single capability keeps Chrome latest, its test name, credentials and client version after mapping, and carries the baseline flag and project "erbis" |
| Parallel.LtOptions.SetSmartUi | playwright-paralel.js:164-166 | the two assignments set smartUIBaseline and smartUIProjectName of the options object and nothing else |
| Parallel.Patch | playwright-paralel.js:162-168 | the patched capability carries the baseline flag and project "erbis" |
| Parallel.PatchMeaning | playwright-paralel.js:162-168 | the patch leaves every other field alone, is idempotent, and changes nothing on an already patched capability |
| Parallel.MapCapabilities | playwright-paralel.js:162-168 | the map returns the same objects in order and each one's options become the patch of their old value, shared objects included |
| Parallel.ValidatePage | playwright-paralel.js:71-107 | true exactly when every step completes; otherwise a rejection with the ReferenceError from `page.close()`; never false |
| Parallel.FanOut | playwright-paralel.js:148 | one validation per page name; the i-th returns true exactly when every step of PAGE_NAMES[i] completes, and rejects otherwise |
| Parallel.PromiseAll | playwright-paralel.js:150 | when Promise.all fulfils it has one value per element |
| Parallel.PromiseAllMeaning | playwright-paralel.js:150 | Promise.all fulfils exactly when every element fulfils, with their values in order, and otherwise rejects with the error of a rejected element |
| Parallel.FanOutMeaning | playwright-paralel.js:148-151 | the fan-out fulfils exactly when every page passes, with results [true, true, true], and otherwise rejects with the ReferenceError |
| Parallel.RunTest | playwright-paralel.js:134-156 | the calls made are a prefix of connect, newContext, browser.close; the pages are reached exactly when connect and newContext complete; the browser is closed exactly when the fan-out rejects |
| Parallel.RunTestMeaning | playwright-paralel.js:134-156 | runTest rejects exactly when connect throws, newContext throws, or a page fails and `browser.close()` then throws; the browser is closed exactly when setup succeeded and the fan-out rejected |
| Parallel.ExitCode | playwright-paralel.js:188-196 | the exit code is 0 or 1, and 1 when arguments are missing |
| Parallel.ExitCodeMeaning | playwright-paralel.js:134-196 | the exit code is 0 exactly when the arguments are present and, for every patched capability, connect and newContext complete and browser.close completes whenever one of its pages fails |
| Parallel.PageFailuresDoNotFailRun | playwright-paralel.js:148-156 | when no session call of any patched capability throws, the exit code is 0 whatever the pages do |
| Parallel.ConnectFailureFailsRun | playwright-paralel.js:172 | one capability whose connect throws makes the exit code 1 |
| Parallel.RunTests | playwright-paralel.js:158-173 | the exit code is `ExitCode` of the capabilities as they were; without arguments nothing is patched; otherwise every capability ends up patched |

## Left out

- Console output, timing (`waitForTimeout`, the 20 ms scroll delay), the screenshot files and the JSON sent to the farm are not modelled. Only whether each awaited call throws is modelled, through the oracles.
- Shared.Lower: only ASCII letters are lower-cased. JavaScript's `toLowerCase` also maps other Unicode letters, and the model has no Unicode case tables.
- SmartUi.Get: a lookup is defined for own keys only. JavaScript object lookups also find inherited properties such as `constructor` or `__proto__`. For example, the arguments `_` and `proto__` build the key `__proto__`, which the script finds on the project-name table and the model does not, so SmartUi.ProjectNameDefinedIff holds for the model only.
- SmartUi.ForceLazyImagesLoad: the document height is a parameter read once. The script re-reads `document.body.scrollHeight` on every iteration, inside the browser, while lazily loaded images may grow the page.
- The whole validation that runs inside the page is one oracle step. That covers `JSON.parse` of the SmartUI status reply, the page-side `evaluate` and the `lambdatest_action` protocol.
- `execSync('npx playwright --version')` becomes the `clientVersion` parameter of `Parallel.InitialCapabilities`, and environment variables become parameters (`Env`, `Credentials`).
- The commented-out capabilities of `playwright-paralel.js` are not modelled.
- The unused `browserName` computed at `playwright-paralel.js:163` is not modelled. Every capability in the list has a browserName, so its `toLowerCase` cannot throw.
- The viewport passed to `newContext` (an unknown size gives `undefined`) only reaches the model through the session oracle.
- Concurrency: the order in which the parallel validations and capability runs interleave is not modelled. `Parallel.PromiseAllMeaning` reports the first rejection in list order. Which rejection comes first in time is not modelled: every page rejection carries the same error, and the exit code does not depend on which one comes first.
- `process.exit` in the parallel script ends sibling runs still in flight. The model only gives the exit code.
- For `playwright-smartui.js` the model gives how the top-level promise settles (`SmartUi.Verdict`). The exit code that Node gives an unhandled rejection is runtime behaviour and is not modelled.
