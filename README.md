# pytest-dsl-ui bookkeeping, modelled in Dafny

This project models the parts of pytest-dsl-ui, the browser-automation plugin for pytest-dsl, that
decide things without calling Playwright. It proves properties of each part:

- **Selector language** (`ElementLocator`, module `ElementLocator`). A DSL selector string is mapped
  to the Playwright call that builds its locator. The recognised forms are:
  - XPath, CSS and `text=`;
  - `role=` in its short `role:name` form and its comma form, which carries options, filters and
    AND/OR combinators;
  - `placeholder=`, `label=`, `title=`, `alt=` and `testid=`.

  `locate_with_filter`, `locate_and` and `locate_or` are modelled too. Playwright locators are
  values of the `Locator` datatype, and each value names the call that creates it.
- **Browser registry** (`BrowserManager`, module `BrowserManagement`). This is a class that holds:
  - three maps from generated string ids to opaque handles, for browsers, contexts and pages;
  - a "current" pointer for each of the three.

  The model covers id generation, error cases, switching, and the cascade of deletions when a
  browser is closed. An invariant is kept: every context id starts with a registered browser id,
  every page id starts with a registered context id, and the current browser is registered. The
  invariant is about ids only: after an id is reused, a context of the replaced browser counts as
  belonging to the new one.
- **Page context** (`PageContext`, module `PageContexts`). This covers:
  - the recording-path state machine;
  - where screenshots and recordings are written, using POSIX `os.path.isabs` and `pathlib` joins,
    which drop "." parts and repeated slashes;
  - the `FileNotFoundError` that `os.makedirs(os.path.dirname(path))` raises when the resolved path
    has no directory part;
  - the viewport size reported for a page.
- **Command line of `playwright2dsl.py`** (module `Playwright2Dsl`). The argument loop of
  `quick_convert` and its exit codes are modelled, as is the rebuilt argument list handed to the
  converter's `main`. So is the restore of `sys.argv`, whether `main` returns or raises.

Two support modules complete the project:
- `PyStr` models the Python `str` operations the code relies on: `split`, `split(sep, 1)`,
  `strip`, `lower` and `str(n)`.
- `Wrappers` holds `Option` and `Result`.

Most parsers are written twice. A specification function is a fold over the parsed parts. A
method with the source's loop is proved equal to that function. Lemmas then state what the
function means: which keys are passed, that the last occurrence wins, and the order of the
wrappers.

Four behaviours of the code as written are proved as stated properties rather than corrected:
- **Browser ids can be reused.** Ids come from the current number of browsers, so a launch after a
  close can hand out an id that is still in use, and the browser under it is replaced
  (`ReusedBrowserId`).
- **The close cascade reaches too far.** Closing a browser removes every context and page whose id
  merely *starts with* the browser id. Closing `chromium_1` therefore also removes the contexts of
  `chromium_10` (`CascadeOverreach`).
- **An empty relative path cannot be saved.** A screenshot or recording path of "", "." or "./"
  resolves to the bare directory name, whose `os.path.dirname` is "", and `os.makedirs("")` raises
  (`EmptyRelativeFails`).
- **The current context can dangle.** Closing a browser that is not the current one leaves the
  current context pointing at a removed context, and a later `create_page` fails
  (`DanglingCurrentContext`).

## Model

| member | source | states |
|---|---|---|
| `PyStr.Split` | pytest_dsl_ui/core/element_locator.py:102 | `str.split(sep)` always yields at least one piece |
| `PyStr.SplitPiecesLackSeparator` | pytest_dsl_ui/core/element_locator.py:102 | no piece of a split contains the separator |
| `PyStr.JoinSplit` | pytest_dsl_ui/core/element_locator.py:102 | joining the pieces of a split with the separator gives back the original string |
| `PyStr.SplitJoin` | pytest_dsl_ui/core/element_locator.py:102 | splitting a join of separator-free pieces gives back those pieces |
| `PyStr.SplitOnceRejoins` | pytest_dsl_ui/core/element_locator.py:108 | `split(sep, 1)` cuts at the first separator: the halves rejoined around it give the string, and the first half has no separator |
| `PyStr.SplitOnceOfJoin` | pytest_dsl_ui/core/element_locator.py:128 | `(a + sep + b).split(sep, 1)` is `(a, b)` when `a` has no separator |
| `PyStr.Strip` | pytest_dsl_ui/core/element_locator.py:103 | the stripped string is no longer than the input and neither of its ends is white space; `StripTrims` states what was removed |
| `PyStr.StripTrims` | pytest_dsl_ui/core/element_locator.py:103 | `s.strip()` is `s` without a run of white space at the front and a run at the back: `s` is that front, the result and that back, in this order |
| `PyStr.TrimStartRemovesSpace` | pytest_dsl_ui/core/element_locator.py:109 | the leading characters that `strip` removes are all white space |
| `PyStr.TrimEndRemovesSpace` | pytest_dsl_ui/core/element_locator.py:110 | the trailing characters that `strip` removes are all white space |
| `PyStr.StripKeeps` | pytest_dsl_ui/core/element_locator.py:103 | a string with no white space at either end is its own strip |
| `PyStr.LowerMatches` | pytest_dsl_ui/core/element_locator.py:113 | `value.lower() == word` holds exactly when every character of `value` lowers to the character of `word` at its place |
| `PyStr.NatToStringRoundTrip` | pytest_dsl_ui/core/browser_manager.py:80 | `int(str(n)) == n` for the counter that goes into an id |
| `PyStr.NatToStringInjective` | pytest_dsl_ui/core/browser_manager.py:80 | distinct counters have distinct decimal forms |
| `ElementLocator.ParsePart` | pytest_dsl_ui/core/element_locator.py:107-110 | a part becomes a key/value assignment exactly when it contains `=` |
| `ElementLocator.ParsePartHalves` | pytest_dsl_ui/core/element_locator.py:107-110 | an assignment is cut at the first `=`: the part is `k=v` with no `=` in `k`, the key is `k` stripped and the value `v` stripped |
| `ElementLocator.Coerce` | pytest_dsl_ui/core/element_locator.py:112-116 | a value that is not coerced to a boolean is passed as the same text |
| `ElementLocator.CoerceIsCaseInsensitive` | pytest_dsl_ui/core/element_locator.py:112-116 | a value becomes `True` or `False` exactly when it spells "true" or "false" in any mix of cases |
| `ElementLocator.TextOptionsKeys` | pytest_dsl_ui/core/element_locator.py:106-116 | a key is passed to `get_by_text` exactly when some later part assigns it; parts without `=` are dropped |
| `ElementLocator.TextOptionsLastWins` | pytest_dsl_ui/core/element_locator.py:106-116 | a passed key has the coerced value of the last part that assigns it |
| `ElementLocator.GatherTextOptions` | pytest_dsl_ui/core/element_locator.py:105-117 | the option loop over the parts after the text yields exactly the options of the parts fold, later keys replacing earlier ones |
| `ElementLocator.ParseTextLocator` | pytest_dsl_ui/core/element_locator.py:96-120 | the loop of `_parse_text_locator` computes the text locator fold |
| `ElementLocator.RoleOptionsKeys` | pytest_dsl_ui/core/element_locator.py:139-167 | a key is a `get_by_role` option exactly when it is not one of `filter_text`, `filter_not_text`, `filter_has`, `and_title`, `and_text`, `or_text` and some part assigns it; those six never reach `get_by_role` |
| `ElementLocator.RoleOptionsLastWins` | pytest_dsl_ui/core/element_locator.py:162-167 | a role option has the coerced value of the last part that assigns it |
| `ElementLocator.RoleFilterText` | pytest_dsl_ui/core/element_locator.py:146-152 | `has_text` is set exactly when a part assigns `filter_text`, from the last such part; `filter_has` is ignored |
| `ElementLocator.RoleFilterNotText` | pytest_dsl_ui/core/element_locator.py:148-149 | `has_not_text` is set exactly when a part assigns `filter_not_text`, from the last such part |
| `ElementLocator.RoleAndLocator` | pytest_dsl_ui/core/element_locator.py:153-158 | the AND locator is set exactly when a part assigns `and_title` or `and_text`, and the last such part decides between `get_by_title` and `get_by_text` |
| `ElementLocator.RoleOrLocator` | pytest_dsl_ui/core/element_locator.py:159-161 | the OR locator is set exactly when a part assigns `or_text`: `get_by_text` of the last such value |
| `ElementLocator.AssembleRoleOrder` | pytest_dsl_ui/core/element_locator.py:169-183 | the assembled locator is built on `get_by_role(role, **kwargs)` and wrapped in the order filter, AND, OR; the filter is applied only when a filter text was given and passes exactly the gathered `has_text`/`has_not_text`; the AND and OR operands are the gathered locators |
| `ElementLocator.GatherRoleOptions` | pytest_dsl_ui/core/element_locator.py:138-167 | the option loop over the parts after the role yields the options, filter texts and AND/OR locators of the parts fold |
| `ElementLocator.ParseRoleLocator` | pytest_dsl_ui/core/element_locator.py:122-186 | the loop of `_parse_role_locator` computes the role locator fold |
| `ElementLocator.Locate` | pytest_dsl_ui/core/element_locator.py:42-94 | `locate` picks the first matching selector kind in the source's order |
| `ElementLocator.XPathSelector` | pytest_dsl_ui/core/element_locator.py:63-65 | a selector starting with `//` or `(//` goes to `page.locator` as `"xpath=" + selector`, whole |
| `ElementLocator.CssFallback` | pytest_dsl_ui/core/element_locator.py:92-94 | a selector with none of the recognised prefixes is passed to `page.locator` unchanged |
| `ElementLocator.PlaceholderPrefix` | pytest_dsl_ui/core/element_locator.py:72-75 | `placeholder=` hands exactly the text after its 12 characters to `get_by_placeholder` |
| `ElementLocator.LabelPrefix` | pytest_dsl_ui/core/element_locator.py:76-79 | `label=` hands exactly the text after its 6 characters to `get_by_label` |
| `ElementLocator.TitlePrefix` | pytest_dsl_ui/core/element_locator.py:80-83 | `title=` hands exactly the text after its 6 characters to `get_by_title` |
| `ElementLocator.AltPrefix` | pytest_dsl_ui/core/element_locator.py:84-87 | `alt=` hands exactly the text after its 4 characters to `get_by_alt_text` |
| `ElementLocator.TestIdPrefix` | pytest_dsl_ui/core/element_locator.py:88-91 | `testid=` hands exactly the text after its 7 characters to `get_by_test_id` |
| `ElementLocator.TextWithoutComma` | pytest_dsl_ui/core/element_locator.py:119-120 | `text=` without a comma uses the whole unstripped remainder as the text, with no options |
| `ElementLocator.TextDispatch` | pytest_dsl_ui/core/element_locator.py:66-68 | a `text=` selector goes to the text parser, which sees exactly the text after the prefix |
| `ElementLocator.TextWithComma` | pytest_dsl_ui/core/element_locator.py:100-118 | with a comma: the stripped first part is the text; a key is passed exactly when a later part assigns it, with the coerced value of the last such part |
| `ElementLocator.RoleDispatch` | pytest_dsl_ui/core/element_locator.py:69-71 | a `role=` selector goes to the role parser, which sees exactly the text after the prefix |
| `ElementLocator.RoleWithName` | pytest_dsl_ui/core/element_locator.py:127-129 | `role=r:n` with no comma is `get_by_role(strip(r), name=strip(n))`, cut at the first colon, with the name never coerced |
| `ElementLocator.RoleWithOptions` | pytest_dsl_ui/core/element_locator.py:130-183 | the comma form, colon or not, is the role locator assembled from the stripped first part and the fold of the later parts: `get_by_role` with the gathered options, the filter with the gathered texts, and the gathered AND/OR operands, in that order |
| `ElementLocator.RoleWithFilterText` | pytest_dsl_ui/core/element_locator.py:130-183 | `role=<role>,filter_text=<text>` is `get_by_role(role.strip())` with no options, filtered by `has_text=text.strip()` and nothing else |
| `ElementLocator.SplitPair` | pytest_dsl_ui/core/element_locator.py:132 | two comma-free pieces joined by a comma split back into those two pieces |
| `ElementLocator.ParseAssignment` | pytest_dsl_ui/core/element_locator.py:140-143 | `key=value` with a key free of `=` and outer white space parses to that key and the stripped value |
| `ElementLocator.FilterTextAssembly` | pytest_dsl_ui/core/element_locator.py:146-179 | a lone `filter_text` part yields the option-less role locator filtered by `has_text` |
| `ElementLocator.FilterTextSelector` | pytest_dsl_ui/core/element_locator.py:130-183 | a role selector that splits into a role and one `filter_text` part locates the filtered role locator |
| `ElementLocator.RoleBare` | pytest_dsl_ui/core/element_locator.py:184-186 | with neither `:` nor `,` the whole remainder is the role, with no options |
| `ElementLocator.LocateWithFilter` | pytest_dsl_ui/core/element_locator.py:439-467 | the located base is filtered; each filter argument is passed exactly when it is neither None nor empty; `has`/`has_not` are located |
| `ElementLocator.LocateAnd` | pytest_dsl_ui/core/element_locator.py:469-481 | the two located selectors combined with `and_` |
| `ElementLocator.LocateOr` | pytest_dsl_ui/core/element_locator.py:483-495 | the two located selectors combined with `or_` |
| `BrowserManagement.IdsDistinct` | pytest_dsl_ui/core/browser_manager.py:80 | ids built from the same owner differ exactly when their counters differ |
| `BrowserManagement.SupportedIgnoresCase` | pytest_dsl_ui/core/browser_manager.py:67-74 | a browser type is accepted exactly when it spells chromium, firefox or webkit in any case |
| `BrowserManagement.DropPrefixed` | pytest_dsl_ui/core/browser_manager.py:242-248 | the clean-up loop removes exactly the entries whose id starts with the prefix, and keeps the others with their handles |
| `BrowserManagement.CascadeKeepsOwnership` | pytest_dsl_ui/core/browser_manager.py:239-248 | after a close, every remaining context id still starts with a registered browser id, and every remaining page id with a registered context id |
| `BrowserManagement.CascadeOverreach` | pytest_dsl_ui/core/browser_manager.py:242 | closing `chromium_1` also removes every context of `chromium_10` |
| `BrowserManagement.BrowserManager.constructor` | pytest_dsl_ui/core/browser_manager.py:23-32 | a new manager has no driver, empty maps and no current browser, context or page |
| `BrowserManagement.BrowserManager.LaunchBrowser` | pytest_dsl_ui/core/browser_manager.py:62-111 | the browser type defaults to "chromium"; the driver is started even for a bad type. An unsupported type fails and changes no map. Otherwise the browser is registered under `type_<count>`, with the type's case kept, and becomes current |
| `BrowserManagement.BrowserManager.CreateContext` | pytest_dsl_ui/core/browser_manager.py:113-180 | fails with no browser or an unknown one and changes nothing. Otherwise the context is registered under `browser_ctx_<count>` and becomes current, and nothing else changes |
| `BrowserManagement.BrowserManager.CreatePage` | pytest_dsl_ui/core/browser_manager.py:182-213 | fails with no context or an unknown one and changes nothing. Otherwise the page is registered under `context_page_<count>` and becomes current, and nothing else changes |
| `BrowserManagement.BrowserManager.GetCurrentPage` | pytest_dsl_ui/core/browser_manager.py:215-219 | succeeds exactly when the current page is still registered, with its handle |
| `BrowserManagement.BrowserManager.GetPage` | pytest_dsl_ui/core/browser_manager.py:221-225 | succeeds exactly for a registered page, with its handle |
| `BrowserManagement.BrowserManager.SwitchPage` | pytest_dsl_ui/core/browser_manager.py:227-232 | fails for an unknown page; otherwise only the current page changes |
| `BrowserManagement.BrowserManager.CloseBrowser` | pytest_dsl_ui/core/browser_manager.py:234-271 | a registered browser is removed with every context and page whose id starts with its id, and the pointers are reset only if it was current. No browser, or an unknown id, changes nothing |
| `BrowserManagement.BrowserManager.CloseAll` | pytest_dsl_ui/core/browser_manager.py:273-291 | every map is empty, the driver is stopped and every pointer is None |
| `BrowserManagement.ReusedBrowserId` | pytest_dsl_ui/core/browser_manager.py:80-81 | launch, launch, close the first, launch: the third browser gets `chromium_1` again and replaces the second |
| `BrowserManagement.DanglingCurrentContext` | pytest_dsl_ui/core/browser_manager.py:251-254 | closing a non-current browser leaves the current context pointing at a removed context, so `create_page()` fails |
| `PageContexts.Segments` | pytest_dsl_ui/core/page_context.py:147 | the parts `pathlib` keeps are never empty and never "." |
| `PageContexts.SegmentsOfClean` | pytest_dsl_ui/core/page_context.py:147 | a path whose parts are all kept is kept whole |
| `PageContexts.PathJoinIsJoin` | pytest_dsl_ui/core/page_context.py:147 | joining parts under a directory gives the directory, a slash and the parts joined by slashes |
| `PageContexts.JoinUnderShape` | pytest_dsl_ui/core/page_context.py:147 | `Path(dir) / rel` is `dir` itself or `dir/` plus the kept parts, so it always lies under `dir` |
| `PageContexts.CleanRelativeJoin` | pytest_dsl_ui/core/page_context.py:197 | a relative path without empty or "." parts is appended to the directory after one slash, as written |
| `PageContexts.NormalisedJoin` | pytest_dsl_ui/core/page_context.py:147 | `./a//b` under `dir` is `dir/a/b` |
| `PageContexts.ScreenshotPath` | pytest_dsl_ui/core/page_context.py:139-147 | an absolute screenshot path is kept; any other lands under `screenshots` |
| `PageContexts.RelativeScreenshot` | pytest_dsl_ui/core/page_context.py:146-147 | a clean relative screenshot path becomes `screenshots/<path>` |
| `PageContexts.DefaultScreenshot` | pytest_dsl_ui/core/page_context.py:139-150 | without a path, a screenshot goes to `screenshots/screenshot_<timestamp>.png`, and saving it does not fail |
| `PageContexts.RecordingTarget` | pytest_dsl_ui/core/page_context.py:189-197 | an absolute recording path is kept and any other lands under `videos`; never empty |
| `PageContexts.DefaultRecording` | pytest_dsl_ui/core/page_context.py:189-200 | without a path, a recording goes to `videos/recording_<timestamp>.webm`, and starting it does not fail |
| `PageContexts.DirName` | pytest_dsl_ui/core/page_context.py:150 | `os.path.dirname(p)` is empty exactly when `p` has no slash |
| `PageContexts.ResolvedWithoutDirectory` | pytest_dsl_ui/core/page_context.py:138-150 | a resolved path has an empty directory part exactly when it is relative and `pathlib` keeps none of its parts |
| `PageContexts.ScreenshotOutcome` | pytest_dsl_ui/core/page_context.py:135-150 | the screenshot is written to `ScreenshotPath`; it fails with `FileNotFoundError` exactly when the path is relative and names nothing but "." parts and slashes |
| `PageContexts.RecordingOutcome` | pytest_dsl_ui/core/page_context.py:189-200 | the recording goes to `RecordingTarget`; it fails with `FileNotFoundError` exactly when the path is relative and names nothing but "." parts and slashes |
| `PageContexts.BareDirectoryFails` | pytest_dsl_ui/core/page_context.py:146-150 | a relative path of which nothing is kept resolves to the bare directory, and both saving a screenshot and starting a recording fail there |
| `PageContexts.NothingKept` | pytest_dsl_ui/core/page_context.py:197 | `pathlib` keeps nothing of "", "." and "./" |
| `PageContexts.EmptyRelativeFails` | pytest_dsl_ui/core/page_context.py:146-150 | a screenshot or recording path of "", "." or "./" fails with `FileNotFoundError` on the bare directory name |
| `PageContexts.ViewportSize` | pytest_dsl_ui/core/page_context.py:267-274 | the page's width and height, or 0 by 0 when it has no viewport |
| `PageContexts.PageContext.constructor` | pytest_dsl_ui/core/page_context.py:31 | a new page context is not recording |
| `PageContexts.PageContext.StartRecording` | pytest_dsl_ui/core/page_context.py:180-206 | the outcome is `RecordingOutcome`: on success the resolved path is stored and returned; on failure the stored path is unchanged |
| `PageContexts.PageContext.StopRecording` | pytest_dsl_ui/core/page_context.py:208-221 | while recording, returns the stored path and clears it; otherwise returns None and changes nothing |
| `PageContexts.RecordingRoundTrip` | pytest_dsl_ui/core/page_context.py:180-221 | when starting succeeds, stopping returns the path that starting returned; when it fails, stopping returns None; either way the context ends not recording |
| `Playwright2Dsl.ExitCode` | playwright2dsl.py:73-107 | exit code 0 exactly for help; every rejected argument list gives 1 |
| `Playwright2Dsl.ScanIsNotHelp` | playwright2dsl.py:84-102 | after the first argument, `-h`/`--help` is an ordinary positional argument |
| `Playwright2Dsl.ParseArgs` | playwright2dsl.py:73-112 | the argument loop computes the specified decision, and help is shown exactly for fewer than two arguments or `-h`/`--help` first |
| `Playwright2Dsl.MissingValueAtEnd` | playwright2dsl.py:87-93 | a missing output value is reported only when the list ends in `-o`/`--output` |
| `Playwright2Dsl.RebuiltShape` | playwright2dsl.py:104-112 | `main` sees the script name and a non-empty input taken from the arguments, plus `-o` and a non-empty output file taken from the arguments when one was given |
| `Playwright2Dsl.Positionals` | playwright2dsl.py:94-102 | the first positional is the input and the second the output; a third is rejected |
| `Playwright2Dsl.OutputFlag` | playwright2dsl.py:87-107 | `-o` sets the output wherever it stands, and a later `-o` wins. A trailing `-o` is an error, and an output file alone is not enough |
| `Playwright2Dsl.Process.QuickConvert` | playwright2dsl.py:71-121 | `sys.argv` ends as it began. `main` runs only on a convertible list, sees the rebuilt list, and its result or exception is passed on; otherwise the exit code is returned |

## Left out

- Playwright itself is left out: its calls (`page.locator`, `get_by_*`, `filter`, `and_`, `or_`, `launch`, `new_context`, `new_page`, `close`, `screenshot`) are foreign. Locators are descriptor values. Browsers, contexts and pages are opaque handles, and a call that creates one receives the handle as a parameter. A Playwright call that raises is not modelled, and neither is Playwright's own rejection of unknown keyword arguments.
- The event-loop plumbing (`_run_async`, `_get_event_loop`, thread pools) and logging are left out: they are concurrency and output, not bookkeeping.
- The launch and context configuration dictionaries are left out: `headless`, `slow_mo`, `args`, `executable_path`, viewport, user agent, geolocation, permissions and `ignore_https_errors`, plus the `_ignore_https_errors` attribute. They are only handed to Playwright, or set on its objects.
- The clock is left out: the formatted timestamp is a parameter. Of `os.makedirs` only the failure on an empty directory name is modelled; the file system (existing files, permissions) is not.
- `_screenshot_async` is modelled only for the path it resolves. Capturing the page or an element is a Playwright call.
- `ElementLocator`'s other helpers are not part of this model: `first`, `last`, `nth`, `visible`, the wait and query methods, and the timeout conversion `int(timeout * 1000)`, which is float arithmetic. The same holds for `PageContext`'s navigation, evaluation and viewport setting, and for the keyword modules, which wrap Playwright actions and reporting.
- The import fallback of `playwright2dsl.py` and the printed help text are left out. The converter's `main` is foreign: its return value or exception is a parameter.
- `PyStr.Lower` implements `str.lower()` only as far as it is compared against words of ASCII small letters, which is all the code does. It maps ASCII capitals and the Kelvin sign. Other characters are kept, since their lower case is never an ASCII letter.
- Paths follow POSIX rules only. A ".." part is kept, as `pathlib` keeps it.

## Notes on the code

- An empty string counts as "not given" wherever the code tests truthiness: an empty `-o` value, an empty input file, an empty `locate_with_filter` argument, and an empty recording path.
- A `filter_text=` with an empty value still causes the filter to be applied, because the code tests the filter dictionary, not the value.
