# Session model of the `WebBrowser` window (brow.py)

This project models, in Dafny, the session state that the PyQt `WebBrowser`
window in `brow.py` keeps once its widgets are taken away, and proves what
that state promises.

- **Address resolution** (module `Resolution`, pure functions). Text typed into
  an address bar that does not start with the literal prefix `"http"` is put
  into the selected engine's query template; anything else, `"httpfoo"`
  included, is used as it is. A recognised voice query follows a three-way
  rule: a query starting with `"http"` is used as it is, a query containing a
  dot gets `"http://"` in front, and any other query becomes a search. Every
  template in the engine table ends in one `{}`, so `str.format` is the text
  before `{}` followed by the query, with no escaping.
- **Python string operations** (module `Strings`): `str.startswith`, and
  `str.strip()` with Python's white-space set. `str.strip()` is applied to the
  stored homepage and to the recognised voice query.
- **History display and storage** (module `History`): the dropdown lists the
  entry `'History'` followed by the history, most recent first. The history
  file is read at start-up, and a missing file gives an empty history.
- **The session** (module `Browser`). The class `WebBrowser` holds these fields:
  - the incognito flag and the selected engine name;
  - the history and the dropdown items;
  - bookmarks, downloads and the homepage;
  - the tab list, where each tab is its address and whether it is private;
  - Qt's current index.

  The class `Disk` stands for the three files the browser writes:
  `history.json`, `bookmarks.json` and `custom_homepage.txt`. Each is held
  already decoded, and `None` means the file is missing.

  Every operation is a method whose postcondition gives the complete new
  session state as an update of the old one, through the snapshot `State()`.
  `SaveHistory` and `UpdateHistoryDropdown` are steps inside `LoadUrl` and
  the constructor, and they do not keep `Valid()` on their own. Every other
  operation keeps the invariant `Valid()`:
  - there is a current index exactly when there are tabs;
  - the dropdown shows the history;
  - the history file holds what a restart would load;
  - once a bookmark is saved, the bookmark file holds the bookmark list;
  - every open shared-profile tab has added a download connection.
- **Scenarios** (module `Scenarios`): sequences of operations and what they
  promise together. Toggling incognito twice restores the session. A tab's
  privacy is fixed when it is opened. Two saves of one page give two
  bookmarks. A run of visits grows the history by exactly those texts, in
  order. Closing the only tab leaves no tab and no current index. Three
  scenarios exhibit the defects listed under "## Findings".

In several places the code does something other than what its names
suggest. The model follows the code:
- History records the raw typed text, not the resolved address (brow.py:228).
  Selecting such an entry from the dropdown then navigates to that raw text
  (brow.py:310).
- Queries are substituted into the template without URL escaping (brow.py:223).
- The literal-address test is the prefix `"http"`, not a recognised scheme.
- `update_search_engine` stores any name (brow.py:288). An unknown name only
  fails later, when a search looks it up (`KeyError`, brow.py:223 and 245). The
  model makes that lookup a precondition of `LoadUrl` and `VoiceSearch`, and
  only on the branch that performs it.
- Closing a tab leaves the choice of the next current tab to Qt's
  `removeTab`. There is no rule of its own in the code.
- Downloads are a list of file names. There are no per-download records and
  no state changes.
- Bookmarks start empty in every session, because `bookmarks.json` is never
  read. The first save overwrites that file with this session's bookmarks
  only.
- A history entry whose text is exactly `History` cannot be loaded from the
  dropdown, because it equals the sentinel (brow.py:306).
- Each non-private tab connects `handle_download` to the one shared default
  profile again (brow.py:206-208), and nothing disconnects it. The session
  counts these connections in `downloadConnections`.
- Two Qt calls name methods that Qt 5 does not have: `setProfile` on a
  `QWebEnginePage` (brow.py:26) and `fileName` on a `QWebEngineDownloadItem`
  (brow.py:319 and 321). The model keeps each as written beside a corrected
  operation (see "## Findings"), and the rest of the session uses the
  corrected one.

## Model

| member | source | states |
|---|---|---|
| Strings.Strip | brow.py:314 | `str.strip()`: the result is a slice of the input, only white space was cut on either side, and the result neither starts nor ends with white space |
| Strings.StripUnique | brow.py:238 | any slice with that property is the result of `Strip`, so `IsStripOf` fully characterises `str.strip()` |
| Strings.StripIdempotent | brow.py:238 | stripping an already stripped query or homepage changes nothing |
| Resolution.SearchEngines | brow.py:43-47 | the table names exactly Google, Bing and DuckDuckGo, and each template is an `https://` address whose only braces are one trailing `{}` |
| Resolution.Format | brow.py:223 | for such a template, `str.format(q)` is the text before `{}` followed by `q` verbatim: the prefix is kept and the result ends with `q` |
| Resolution.Template | brow.py:43-47 | the template of any engine in the table has no brace before its single trailing `{}` and starts with `https://` |
| Resolution.SearchUrl | brow.py:223 | a search address starts with `https://` and ends with the query verbatim |
| Resolution.ResolveTyped | brow.py:220-226 | the address `load_url` navigates to always starts with `http`; an unknown engine is only needed on the search branch |
| Resolution.ResolveTypedCases | brow.py:221-226 | text starting with `http` is used verbatim; other text becomes the engine's search address, differs from the text, and can be read back from its end |
| Resolution.SearchUrlInjective | brow.py:223 | two different queries never give the same search address |
| Resolution.ResolveTypedIdempotent | brow.py:222-226 | resolving an already resolved address again, under any engine, changes nothing |
| Resolution.ResolveVoice | brow.py:241-246 | the address `voice_search` opens always starts with `http`; the engine is only needed for a query with no `http` prefix and no dot |
| Resolution.ResolveVoiceIdempotent | brow.py:241-246 | a voice result passes through both typed and voice resolution unchanged |
| Resolution.VoiceAgreesWithTyped | brow.py:241-245 | voice and typed resolution give the same address if and only if the query starts with `http` or has no dot |
| Resolution.GoogleSearchExample | brow.py:44-48 | with the default engine, `openai.com` becomes `https://www.google.com/search?q=openai.com` |
| Resolution.HttpPrefixExamples | brow.py:222-226 | `https://openai.com` and `httpfoo` are used verbatim |
| History.Reversed | brow.py:302 | reversal keeps the length |
| History.ReversedIndex | brow.py:302-303 | position `k` of the reversal holds the `k`-th entry from the end |
| History.ReversedAppend | brow.py:302-303 | an entry appended to the history comes first in the reversal |
| History.ReversedInvolution | brow.py:302 | reversing twice gives the history back, so the dropdown loses no entry and adds none |
| History.DropdownItems | brow.py:299-303 | the dropdown has one more item than the history: `'History'` first, then item `k` is the `k`-th most recent entry |
| History.LoadHistory | brow.py:296-297 | a missing history file gives an empty history, otherwise the stored list; `WebBrowser.Valid()` keeps `LoadHistory(historyFile)` equal to the history in memory, so a restart reloads it |
| History.DropdownAfterVisit | brow.py:227-230 | after a visit, the new text is shown directly under `'History'`, ahead of all earlier entries in their old order |
| Browser.LoadCustomHomepage | brow.py:312-315 | with no stored file the homepage is `https://www.google.com`; otherwise it is the stored text stripped |
| Browser.HomepageRoundTrip | brow.py:258-262 | over the decoded file contents, a chosen homepage comes back unchanged in the next session if and only if it has no white space at either end |
| Browser.RemoveAt | brow.py:344 | removing tab `i` drops exactly that tab: one fewer tab, the tabs before keep their place, the tabs after move up by one |
| Browser.ShortcutTab | brow.py:170-171 | the index each Ctrl+digit slot binds: Ctrl+1 to Ctrl+9 give `idx` 0 to 8 |
| Browser.ShortcutLambda | brow.py:171 | the slot as written, called with the signal's arguments: it raises `TypeError` exactly when it gets fewer than one or more than two; one argument switches to the bound index, a second overrides it |
| Browser.ShortcutActivatedRaises | brow.py:171-175 | `activated` passes no argument, so every Ctrl+digit press raises `TypeError` before `switch_tab` runs; the application then terminates, which is not modelled |
| Browser.Repeat | brow.py:208 | `n` copies of a file name: length `n`, every entry that name |
| Browser.WebBrowser.constructor | brow.py:30-54 | start-up: the homepage and history come from their files, bookmarks and downloads are empty, incognito is off, Google is selected, and one non-private tab is open on the homepage |
| Browser.WebBrowser.UpdateHistoryDropdown | brow.py:299-303 | the loop over `reversed(self.history)` builds exactly `DropdownItems(history)` and changes nothing else |
| Browser.CountShared | brow.py:200-208 | the number of shared-profile tabs, which is at most the number of tabs |
| Browser.CountSharedPositive | brow.py:205-208 | a session with a shared-profile tab has at least one such tab, so it has at least one download connection |
| Browser.CountSharedUpdate | brow.py:224-226 | replacing a tab by one of the same privacy, as navigation does, keeps the number of shared-profile tabs |
| Browser.CountSharedRemoveAt | brow.py:340-344 | closing a tab never raises the number of shared-profile tabs, while the connections it made stay |
| Browser.WebBrowser.NewTab | brow.py:177-218 | the new tab is appended and made current; it is private exactly when incognito is on at that moment; its address is the argument, or the homepage when that is missing or empty; a non-private tab adds one download connection to the shared profile; nothing else changes. The private branch is the intended profile set-up: as written it raises (see `NewTabAsWritten`) |
| Browser.WebBrowser.NewTabAsWritten | brow.py:24-26 | `new_tab` as written: with incognito on, building the page raises `AttributeError` on `setProfile` before the session changes, and the application then terminates, which is not modelled; with it off, it is exactly `NewTab` |
| Browser.WebBrowser.SaveHistory | brow.py:291-294 | the history file gets the in-memory history outside incognito, and stays untouched in incognito |
| Browser.WebBrowser.LoadUrl | brow.py:220-230 | the tab's address becomes the resolved address and its privacy is kept; outside incognito the history, its file and the dropdown gain the raw text as the newest entry; in incognito none of them change |
| Browser.WebBrowser.VoiceSearch | brow.py:232-251 | a failed recognition changes nothing; otherwise the stripped query's address opens in a new current tab with the current privacy, as the corrected `NewTab` opens it, and the history is untouched |
| Browser.WebBrowser.SetCustomHomepage | brow.py:253-263 | an accepted choice becomes the homepage and the stored homepage file; a cancelled dialog changes nothing |
| Browser.WebBrowser.SaveBookmark | brow.py:265-271 | the current tab's address is appended even when it is already there, and the bookmark file gets the whole list |
| Browser.WebBrowser.ToggleIncognitoMode | brow.py:282-285 | only the flag changes, to its negation; tabs, history and files are untouched |
| Browser.WebBrowser.UpdateSearchEngine | brow.py:287-289 | the engine name is stored without validation, and nothing else changes |
| Browser.WebBrowser.LoadFromHistory | brow.py:305-310 | choosing `'History'` changes nothing; any other item becomes the current tab's address, with its privacy kept and no history entry added |
| Browser.WebBrowser.HandleDownload | brow.py:317-322 | the handler with its file-name lookup corrected: one call appends the file name once to the downloads and nothing else in the session changes |
| Browser.WebBrowser.HandleDownloadAsWritten | brow.py:318-321 | the handler as written: it raises `AttributeError` on `fileName` before the append, so the downloads are as they were when the application then terminates, which is not modelled |
| Browser.WebBrowser.DownloadRequested | brow.py:206-208 | with the corrected handler, a download from a private tab is recorded once and one from a shared-profile tab once per connection made so far; either way at least once; nothing else changes |
| Browser.WebBrowser.CloseTab | brow.py:340-344 | a valid index removes exactly that tab, and the current index is some remaining tab or -1 when none is left; an invalid index changes nothing |
| Browser.WebBrowser.CloseCurrentTab | brow.py:346-349 | with no current tab nothing changes; otherwise exactly the current tab is removed |
| Browser.WebBrowser.SwitchTab | brow.py:351-353 | an index within the tab count becomes current; any other index changes nothing |
| Browser.WebBrowser.SwitchTabShortcut | brow.py:170-171 | the call the Ctrl+`d` slot is meant to make, `switch_tab(d - 1)`: tab `d - 1` becomes current when it exists, and otherwise nothing changes |
| Scenarios.ToggleIncognitoTwice | brow.py:282-283 | toggling incognito twice restores the whole session |
| Scenarios.PrivacyFixedAtCreation | brow.py:200-206 | with the private profile set up as intended, a tab opened before a toggle keeps its privacy; one opened after gets the new flag |
| Scenarios.BookmarkTwice | brow.py:265-270 | saving the same page twice gives two equal entries, in memory and in the file |
| Scenarios.Visit | brow.py:220-229 | one typed visit keeps the session valid, the tab count, the incognito flag and the engine, and grows the history by the text outside incognito only |
| Scenarios.VisitAll | brow.py:227-229 | a run of typed visits grows the history, and what a restart would load, by exactly those texts in order outside incognito; in incognito the history is unchanged |
| Scenarios.CloseOnlyTab | brow.py:346-349 | closing the only tab leaves no tab and the current index -1 |
| Scenarios.SharedProfileDownload | brow.py:206-208 | with the corrected handler and two non-private tabs open, one download from the first is recorded twice |
| Scenarios.IncognitoNewTabAsWritten | brow.py:201-203 | in a fresh session, incognito on then a new tab: `setProfile` raises while the single non-private tab is all there is; the application then terminates, which is not modelled |
| Scenarios.DownloadAsWritten | brow.py:318-321 | in a fresh session, a download raises on `fileName` while the downloads are still empty; the application then terminates, which is not modelled |

## Left out

- Qt presentation is not modelled: widgets, stylesheets, menus, the toolbar, the
  incognito button's label, the download manager dialog and the wiring of
  shortcuts and signals. Two effects of that wiring are modelled, because they
  change the session: the Ctrl+digit slot's signature and the repeated
  download connection (see "## Findings").
- Reordering tabs by dragging (`setMovable(True)`) is not modelled. It happens
  inside Qt, not in this code.
- The rendering engine is a foreign collaborator and is not modelled. This
  covers `back`, `forward` and `reload` (brow.py:273-280), `QUrl` parsing and
  normalisation, and navigation the page itself performs. A tab's address is
  the last string handed to `setUrl`. `save_bookmark` reads `browser.url()`
  from the engine, and the model takes that to be this string.
- Private profiles are represented only by the tab's private flag. The model
  does not cover their isolation from each other or their disposal when a tab
  closes. As written their creation raises (see "## Findings"); the model
  gives the intended flag instead.
- `VoiceSearch` is modelled with the corrected tab creation only. As written,
  a voice search in incognito mode raises in the same `setProfile` call as
  `NewTabAsWritten`.
- Speech recognition is external I/O and is not modelled. `VoiceSearch` takes
  the recognised text, or `None` for the two caught failures.
- The listen timeout error (`WaitTimeoutError`) is not caught in the code, and
  the model does not represent it.
- File I/O is reduced to `Disk`, which holds decoded values. The model leaves
  out JSON encoding, write failures, a malformed file (where `json.load` would
  raise), and reading the homepage from the file dialog.
- Downloads are not modelled beyond the list of names. This covers accepting
  them, the destination path in the working directory, the `finished` callback
  and printing.
- `print` output and `deleteLater` of the removed widget are not modelled.
- The exceptions raised as written are not followed past the raise. Each of
  them escapes a Qt slot: the Ctrl+digit lambda (brow.py:175), `new_tab`
  through the button, Ctrl+T and `voice_search` (brow.py:144, 167 and 246;
  the `except` clauses at brow.py:248-251 catch only the recognizer's errors),
  and `handle_download` (brow.py:208). The code installs no `sys.excepthook`,
  and from PyQt5 5.5 on such an exception ends the application.
  `ShortcutLambda`, `NewTabAsWritten` and `HandleDownloadAsWritten` stop at
  the raise and return the error, and the scenarios built on them describe
  the session at that moment. The process exit that follows is not modelled.
- Browser.WebBrowser.CloseTab: does not say which tab becomes current after a
  removal, only that it is a remaining tab or -1. Qt's `removeTab` makes that
  choice, not this code.
- Browser.WebBrowser.CloseCurrentTab: is weaker for the same reason as
  `CloseTab`.
- Browser.WebBrowser.LoadUrl: requires the selected engine to be in the table
  whenever the text is a search, where the code raises `KeyError`. The
  exception path is not modelled.
- Browser.WebBrowser.VoiceSearch: requires the engine to be in the table
  whenever the query is a search, for the same `KeyError` reason.
- Browser.WebBrowser.SaveBookmark: requires an open tab. With none,
  `currentWidget()` is `None` and the code fails.
- Browser.HomepageRoundTrip: reads the file as already decoded text. The code
  writes and reads `custom_homepage.txt` in text mode (brow.py:260 and 314),
  where universal newlines turn a `'\r'` inside the path into `'\n'`. Such a
  path does not come back unchanged.
- Browser.WebBrowser.LoadFromHistory: requires an open tab for any item other
  than the sentinel. With none, `currentWidget()` is `None` and the code fails.

## Findings

| source | as written | input that shows it | evidently intended | confidence | as-written member | corrected member |
|---|---|---|---|---|---|---|
| brow.py:171 | the Ctrl+digit slot is `lambda _, idx=i-1: self.switch_tab(idx)`, which needs one positional argument, but `QShortcut.activated` passes none | pressing Ctrl+1 with any tab open: the call raises `TypeError`, `switch_tab` never runs, and the application terminates (PyQt5 5.5 or later) | the shortcut calls `switch_tab(i - 1)` | not executed | Browser.ShortcutActivatedRaises | Browser.WebBrowser.SwitchTabShortcut |
| brow.py:24-26 | `CustomWebEnginePage.__init__` builds the page on the default profile and then calls `setProfile`, which Qt 5's `QWebEnginePage` does not have; `new_tab` builds one whenever incognito is on (brow.py:201-203) | a fresh session, press the incognito button, then open a new tab: `AttributeError`, no tab is added, and the application terminates (PyQt5 5.5 or later) | the tab opens on its own off-the-record profile, for instance with `QWebEnginePage(profile, parent)` | not executed | Scenarios.IncognitoNewTabAsWritten | Browser.WebBrowser.NewTab |
| brow.py:319-321 | `handle_download` calls `download.fileName()`, which Qt 5's `QWebEngineDownloadItem` does not have; it raises after `accept()` and before the append | any download in a fresh session: `downloads` stays empty, and the application terminates (PyQt5 5.5 or later) | the downloaded file's name is recorded once the download is accepted | not executed | Scenarios.DownloadAsWritten | Browser.WebBrowser.HandleDownload |
| brow.py:206-208 | every non-private tab connects `handle_download` to the one shared default profile again, so a download runs it once per such tab opened; this shows once the `fileName` call above is corrected | a fresh session plus one `new_tab()`, then one download in the first tab: `downloads` gets `report.pdf` twice | each download is recorded once | not executed | Scenarios.SharedProfileDownload | Browser.WebBrowser.HandleDownload |
