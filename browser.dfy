/**
 * The session state of the `WebBrowser` window in brow.py with the Qt widgets
 * taken away: the tab list and current index, the incognito flag, the selected
 * search engine, history, bookmarks, downloads and homepage, and the three
 * files the browser writes.
 */
module Browser {
  import opened Wrappers
  import opened Strings
  import opened Resolution
  import opened History

  /**
   * One tab: the address last handed to its rendering engine and whether it
   * was opened on a private (incognito) profile.
   */
  datatype Tab = Tab(url: string, isPrivate: bool)

  /** The homepage when no custom homepage has been stored. */
  const DefaultHomepage := "https://www.google.com"

  /**
   * `load_custom_homepage`: the stripped contents of the stored homepage file,
   * or the default homepage when there is none.
   */
  function LoadCustomHomepage(file: Option<string>): (homepage: string)
    ensures file.None? ==> homepage == DefaultHomepage
    ensures file.Some? ==> IsStripOf(homepage, file.value)
  {
    if file.Some? then Strip(file.value) else DefaultHomepage
  }

  /**
   * A homepage chosen with `set_custom_homepage` is the homepage of the next
   * session exactly when it has no white space at either end.
   */
  lemma HomepageRoundTrip(path: string)
    ensures LoadCustomHomepage(Some(path)) == path <==> NoOuterSpace(path)
  {
    if NoOuterSpace(path) {
      StripNoOuterSpace(path);
    } else {
      var r := Strip(path);
      var i, j :| 0 <= i <= j <= |path| && r == path[i..j] && SpaceBetween(path, 0, i)
                  && SpaceBetween(path, j, |path|) && NoOuterSpace(r);
    }
  }

  /** `list.pop(i)` on the tab list, as Qt's `removeTab` does: the element at `i` goes, the rest keep their order. */
  function RemoveAt<T>(s: seq<T>, i: int): (r: seq<T>)
    requires 0 <= i < |s|
    ensures |r| == |s| - 1
    ensures forall k | 0 <= k < i :: r[k] == s[k]
    ensures forall k | i <= k < |r| :: r[k] == s[k + 1]
    ensures multiset(r) + multiset{s[i]} == multiset(s)
  {
    assert s == s[..i] + [s[i]] + s[i + 1..];
    s[..i] + s[i + 1..]
  }

  /** How many of `tabs` use the shared default profile. */
  function CountShared(tabs: seq<Tab>): (n: nat)
    ensures n <= |tabs|
  {
    if tabs == [] then 0
    else CountShared(tabs[..|tabs| - 1]) + if tabs[|tabs| - 1].isPrivate then 0 else 1
  }

  /** A shared-profile tab is counted. */
  lemma {:induction false} CountSharedPositive(tabs: seq<Tab>, k: int)
    requires 0 <= k < |tabs| && !tabs[k].isPrivate
    ensures CountShared(tabs) >= 1
  {
    if k < |tabs| - 1 {
      CountSharedPositive(tabs[..|tabs| - 1], k);
    }
  }

  /** Giving a tab a new address with the same profile keeps the count. */
  lemma {:induction false} CountSharedUpdate(tabs: seq<Tab>, i: int, t: Tab)
    requires 0 <= i < |tabs| && t.isPrivate == tabs[i].isPrivate
    ensures CountShared(tabs[i := t]) == CountShared(tabs)
  {
    var u := tabs[i := t];
    if i < |tabs| - 1 {
      assert u[..|u| - 1] == tabs[..|tabs| - 1][i := t];
      CountSharedUpdate(tabs[..|tabs| - 1], i, t);
    } else {
      assert u[..|u| - 1] == tabs[..|tabs| - 1];
    }
  }

  /** Closing a tab never raises the count. */
  lemma {:induction false} CountSharedRemoveAt(tabs: seq<Tab>, i: int)
    requires 0 <= i < |tabs|
    ensures CountShared(RemoveAt(tabs, i)) <= CountShared(tabs)
  {
    var r := RemoveAt(tabs, i);
    if i < |tabs| - 1 {
      assert r[..|r| - 1] == RemoveAt(tabs[..|tabs| - 1], i);
      assert r[|r| - 1] == tabs[|tabs| - 1];
      CountSharedRemoveAt(tabs[..|tabs| - 1], i);
    } else {
      assert r == tabs[..|tabs| - 1];
    }
  }

  /** Qt's tab widget has a current index exactly when it has tabs. */
  predicate CurrentIndexValid(tabs: seq<Tab>, current: int)
  {
    if tabs == [] then current == -1 else 0 <= current < |tabs|
  }

  /** The Ctrl+1 to Ctrl+9 shortcuts select the tabs at indices 0 to 8. */
  function ShortcutTab(digit: int): (index: int)
    requires 1 <= digit <= 9
    ensures 0 <= index <= 8 && index + 1 == digit
  {
    digit - 1
  }

  /** What a call of a Ctrl+digit slot does: switch to a tab, or raise `TypeError`. */
  datatype SlotCall = SwitchTo(index: int) | TypeError

  /** `QShortcut.activated` carries no arguments, so its slots are called with none. */
  const ActivatedArgs: seq<int> := []

  /**
   * The slot brow.py connects for Ctrl+`digit`, `lambda _, idx=digit-1:
   * self.switch_tab(idx)`, called with the positional arguments `args`: `_`
   * is required and `idx` may be overridden, so anything but one or two
   * arguments raises `TypeError`.
   */
  function ShortcutLambda(digit: int, args: seq<int>): (call: SlotCall)
    requires 1 <= digit <= 9
    ensures call.TypeError? <==> !(1 <= |args| <= 2)
    ensures |args| == 1 ==> call == SwitchTo(ShortcutTab(digit))
    ensures |args| == 2 ==> call == SwitchTo(args[1])
  {
    if |args| == 1 then SwitchTo(ShortcutTab(digit))
    else if |args| == 2 then SwitchTo(args[1])
    else TypeError
  }

  /** As written, no Ctrl+digit press reaches `switch_tab`: every call raises `TypeError`. */
  lemma ShortcutActivatedRaises(digit: int)
    requires 1 <= digit <= 9
    ensures ShortcutLambda(digit, ActivatedArgs) == TypeError
  {
  }

  /** `n` copies of `x`. */
  function Repeat<T>(x: T, n: nat): (r: seq<T>)
    ensures |r| == n && forall k | 0 <= k < n :: r[k] == x
  {
    if n == 0 then [] else Repeat(x, n - 1) + [x]
  }

  /**
   * The files the browser reads and writes, already decoded: `history.json`,
   * `bookmarks.json` and `custom_homepage.txt`; `None` is a missing file.
   */
  class Disk {
    var historyFile: Option<seq<string>>
    var bookmarksFile: Option<seq<string>>
    var homepageFile: Option<string>

    constructor (historyFile: Option<seq<string>>, bookmarksFile: Option<seq<string>>, homepageFile: Option<string>)
      ensures this.historyFile == historyFile && this.bookmarksFile == bookmarksFile
      ensures this.homepageFile == homepageFile
    {
      this.historyFile := historyFile;
      this.bookmarksFile := bookmarksFile;
      this.homepageFile := homepageFile;
    }
  }

  /** Everything a `WebBrowser` and its files hold at one moment. */
  datatype Session = Session(
    incognitoMode: bool,
    selectedSearchEngine: string,
    homepage: string,
    history: seq<string>,
    historyDropdown: seq<string>,
    bookmarks: seq<string>,
    downloads: seq<string>,
    downloadConnections: nat,
    tabs: seq<Tab>,
    current: int,
    historyFile: Option<seq<string>>,
    bookmarksFile: Option<seq<string>>,
    homepageFile: Option<string>)

  class WebBrowser {
    const disk: Disk
    var homepage: string
    var bookmarks: seq<string>
    var incognitoMode: bool
    var history: seq<string>
    var downloads: seq<string>
    var selectedSearchEngine: string
    /**
     * How many times `handle_download` is connected to the shared default
     * profile's `downloadRequested`: once per non-private tab ever opened.
     */
    var downloadConnections: nat
    /** The items of the history dropdown, top to bottom. */
    var historyDropdown: seq<string>
    var tabs: seq<Tab>
    /** The tab widget's `currentIndex()`. */
    var current: int

    ghost function State(): Session
      reads this, disk
    {
      Session(incognitoMode, selectedSearchEngine, homepage, history, historyDropdown,
              bookmarks, downloads, downloadConnections, tabs, current,
              disk.historyFile, disk.bookmarksFile, disk.homepageFile)
    }

    /**
     * The session invariant: a current tab exactly when there are tabs, the
     * dropdown shows the history, a restart would load the history held in
     * memory, once a bookmark is saved the bookmark file holds the list, and
     * every open shared-profile tab added its own download connection.
     */
    ghost predicate Valid()
      reads this, disk
    {
      && CurrentIndexValid(tabs, current)
      && historyDropdown == DropdownItems(history)
      && LoadHistory(disk.historyFile) == history
      && (bookmarks != [] ==> disk.bookmarksFile == Some(bookmarks))
      && CountShared(tabs) <= downloadConnections
    }

    /** `__init__` without the widgets: load the files, then open one tab on the homepage. */
    constructor (disk: Disk)
      ensures Valid() && this.disk == disk
      ensures homepage == LoadCustomHomepage(disk.homepageFile)
      ensures history == LoadHistory(disk.historyFile)
      ensures bookmarks == [] && downloads == [] && !incognitoMode
      ensures downloadConnections == 1
      ensures selectedSearchEngine == DefaultEngine
      ensures tabs == [Tab(homepage, false)] && current == 0
    {
      this.disk := disk;
      homepage := LoadCustomHomepage(disk.homepageFile);
      bookmarks := [];
      incognitoMode := false;
      history := LoadHistory(disk.historyFile);
      downloads := [];
      downloadConnections := 0;
      selectedSearchEngine := DefaultEngine;
      historyDropdown := [Sentinel];
      tabs := [];
      current := -1;
      new;
      UpdateHistoryDropdown();
      NewTab(None);
    }

    /** Rebuild the dropdown: the sentinel, then `reversed(self.history)`. */
    method UpdateHistoryDropdown()
      modifies this`historyDropdown
      ensures historyDropdown == DropdownItems(history)
      ensures State() == old(State()).(historyDropdown := DropdownItems(history))
    {
      var items := [Sentinel];
      var i := |history|;
      while i > 0
        invariant 0 <= i <= |history|
        invariant items == [Sentinel] + Reversed(history[i..])
      {
        i := i - 1;
        assert history[i..][1..] == history[i + 1..];
        items := items + [history[i]];
      }
      historyDropdown := items;
    }

    /**
     * Open a tab at the end of the tab bar and make it current. Its privacy is
     * the incognito flag at this moment; its address is `url`, or the homepage
     * when `url` is missing or empty. A non-private tab uses the shared
     * default profile and connects `handle_download` to it once more.
     */
    method NewTab(url: Option<string>)
      requires Valid()
      modifies this
      ensures Valid()
      ensures State() == old(State()).(
        tabs := old(tabs) + [Tab(if url.None? || url.value == "" then old(homepage) else url.value, old(incognitoMode))],
        current := |old(tabs)|,
        downloadConnections := old(downloadConnections) + if old(incognitoMode) then 0 else 1)
    {
      var address := if url.None? || url.value == "" then homepage else url.value;
      ghost var before := tabs;
      tabs := tabs + [Tab(address, incognitoMode)];
      assert tabs[..|tabs| - 1] == before;
      current := |tabs| - 1;
      if !incognitoMode {
        downloadConnections := downloadConnections + 1;
      }
      assert State() == old(State()).(tabs := tabs, current := current, downloadConnections := downloadConnections);
    }

    /**
     * `new_tab` as written. With incognito on it builds a
     * `CustomWebEnginePage`, whose `__init__` calls `setProfile`; Qt 5's
     * `QWebEnginePage` has no such method, so the call raises
     * `AttributeError` before any tab is added. `error` names the missing
     * attribute.
     */
    method NewTabAsWritten(url: Option<string>) returns (error: Option<string>)
      requires Valid()
      modifies this
      ensures Valid()
      ensures old(incognitoMode) ==> error == Some("setProfile") && State() == old(State())
      ensures !old(incognitoMode) ==> (error.None? &&
        State() == old(State()).(
          tabs := old(tabs) + [Tab(if url.None? || url.value == "" then old(homepage) else url.value, false)],
          current := |old(tabs)|,
          downloadConnections := old(downloadConnections) + 1))
    {
      if incognitoMode {
        return Some("setProfile");
      }
      NewTab(url);
      error := None;
    }

    /** Write the history file, except in incognito mode. */
    method SaveHistory()
      modifies disk
      ensures State() == if old(incognitoMode) then old(State()) else old(State()).(historyFile := Some(history))
    {
      if !incognitoMode {
        disk.historyFile := Some(history);
      }
    }

    /**
     * Enter pressed in the address bar of tab `tab` holding `text`: navigate
     * that tab to the resolved address and, outside incognito mode, record the
     * raw text in the history, its file and the dropdown.
     */
    method LoadUrl(tab: int, text: string)
      requires Valid() && 0 <= tab < |tabs|
      requires IsLiteralAddress(text) || selectedSearchEngine in SearchEngines()
      modifies this, disk
      ensures Valid() && |tabs| == |old(tabs)|
      ensures history == if old(incognitoMode) then old(history) else old(history) + [text]
      ensures var visited := old(tabs)[tab := Tab(ResolveTyped(text, old(selectedSearchEngine)), old(tabs[tab].isPrivate))];
        if old(incognitoMode) then
          State() == old(State()).(tabs := visited)
        else
          State() == old(State()).(tabs := visited, history := old(history) + [text],
                                   historyDropdown := DropdownItems(old(history) + [text]),
                                   historyFile := Some(old(history) + [text]))
    {
      var address := ResolveTyped(text, selectedSearchEngine);
      CountSharedUpdate(tabs, tab, tabs[tab].(url := address));
      tabs := tabs[tab := tabs[tab].(url := address)];
      if !incognitoMode {
        history := history + [text];
        SaveHistory();
        UpdateHistoryDropdown();
      }
    }

    /**
     * The voice search button after speech recognition: `None` when nothing
     * was understood or the service failed, otherwise the recognised text,
     * which is stripped, resolved and opened in a new tab.
     */
    method VoiceSearch(recognized: Option<string>)
      requires Valid()
      requires recognized.Some? ==> !VoiceUsesEngine(Strip(recognized.value)) || selectedSearchEngine in SearchEngines()
      modifies this
      ensures Valid()
      ensures recognized.None? ==> State() == old(State())
      ensures recognized.Some? ==>
        State() == old(State()).(
          tabs := old(tabs) + [Tab(ResolveVoice(Strip(recognized.value), old(selectedSearchEngine)), old(incognitoMode))],
          current := |old(tabs)|,
          downloadConnections := old(downloadConnections) + if old(incognitoMode) then 0 else 1)
    {
      if recognized.Some? {
        var query := Strip(recognized.value);
        var address := ResolveVoice(query, selectedSearchEngine);
        NewTab(Some(address));
      }
    }

    /** The file dialog's choice, if accepted, becomes the homepage and is written to its file. */
    method SetCustomHomepage(chosen: Option<string>)
      requires Valid()
      modifies this, disk
      ensures Valid()
      ensures chosen.None? ==> State() == old(State())
      ensures chosen.Some? ==> State() == old(State()).(homepage := chosen.value, homepageFile := Some(chosen.value))
    {
      if chosen.Some? {
        disk.homepageFile := Some(chosen.value);
        homepage := chosen.value;
      }
    }

    /**
     * Append the current tab's address to the bookmarks, duplicates included,
     * and write the whole list to the bookmark file. With no tab open the
     * source fails on `currentWidget()`, hence the precondition.
     */
    method SaveBookmark()
      requires Valid() && tabs != []
      modifies this, disk
      ensures Valid()
      ensures State() == old(State()).(bookmarks := old(bookmarks) + [old(tabs[current].url)],
                                       bookmarksFile := Some(old(bookmarks) + [old(tabs[current].url)]))
    {
      var address := tabs[current].url;
      bookmarks := bookmarks + [address];
      disk.bookmarksFile := Some(bookmarks);
    }

    /** Flip the incognito flag; tabs already open keep their profile. */
    method ToggleIncognitoMode()
      requires Valid()
      modifies this`incognitoMode
      ensures Valid()
      ensures State() == old(State()).(incognitoMode := !old(incognitoMode))
    {
      incognitoMode := !incognitoMode;
    }

    /** Select an engine by name, unchecked. */
    method UpdateSearchEngine(engine: string)
      requires Valid()
      modifies this`selectedSearchEngine
      ensures Valid()
      ensures State() == old(State()).(selectedSearchEngine := engine)
    {
      selectedSearchEngine := engine;
    }

    /**
     * A dropdown item was chosen: the sentinel does nothing, any other item
     * becomes the current tab's address, without a new history entry.
     */
    method LoadFromHistory(url: string)
      requires Valid() && (url == Sentinel || tabs != [])
      modifies this
      ensures Valid()
      ensures url == Sentinel ==> State() == old(State())
      ensures url != Sentinel ==>
        State() == old(State()).(tabs := old(tabs)[old(current) := Tab(url, old(tabs[current].isPrivate))])
    {
      if url == Sentinel {
        return;
      }
      CountSharedUpdate(tabs, current, tabs[current].(url := url));
      tabs := tabs[current := tabs[current].(url := url)];
    }

    /** One call of `handle_download`: record the offered file name once. */
    method HandleDownload(fileName: string)
      requires Valid()
      modifies this`downloads
      ensures Valid()
      ensures State() == old(State()).(downloads := old(downloads) + [fileName])
    {
      downloads := downloads + [fileName];
    }

    /**
     * `handle_download` as written: after `accept()` it reads
     * `download.fileName()`, which Qt 5's `QWebEngineDownloadItem` does not
     * have, so it raises `AttributeError` before the name is appended.
     */
    method HandleDownloadAsWritten(fileName: string) returns (error: Option<string>)
      requires Valid()
      ensures error == Some("fileName")
    {
      error := Some("fileName");
    }

    /**
     * The profile of tab `tab` offers a download. A private tab's own profile
     * calls `handle_download` once; the shared default profile calls it once
     * per connection, so the name is recorded that many times.
     */
    method DownloadRequested(tab: int, fileName: string)
      requires Valid() && 0 <= tab < |tabs|
      modifies this`downloads
      ensures Valid()
      ensures var calls := if old(tabs[tab].isPrivate) then 1 else old(downloadConnections);
        State() == old(State()).(downloads := old(downloads) + Repeat(fileName, calls))
      ensures |downloads| > |old(downloads)|
    {
      if !tabs[tab].isPrivate {
        CountSharedPositive(tabs, tab);
      }
      var calls := if tabs[tab].isPrivate then 1 else downloadConnections;
      var i := 0;
      while i < calls
        invariant 0 <= i <= calls
        invariant Valid()
        invariant downloads == old(downloads) + Repeat(fileName, i)
      {
        assert Repeat(fileName, i + 1) == Repeat(fileName, i) + [fileName];
        HandleDownload(fileName);
        i := i + 1;
      }
      assert |Repeat(fileName, calls)| >= 1;
    }

    /**
     * Remove the tab at `index` if there is one. Which tab Qt makes current
     * afterwards is Qt's choice: some tab, or none when no tab is left.
     */
    method CloseTab(index: int)
      requires Valid()
      modifies this`tabs, this`current
      ensures Valid()
      ensures 0 <= index < |old(tabs)| ==>
        State() == old(State()).(tabs := RemoveAt(old(tabs), index), current := current)
      ensures !(0 <= index < |old(tabs)|) ==> State() == old(State())
    {
      if 0 <= index < |tabs| {
        CountSharedRemoveAt(tabs, index);
        tabs := RemoveAt(tabs, index);
        if tabs == [] {
          current := -1;
        } else {
          var next :| 0 <= next < |tabs|;
          current := next;
        }
      }
    }

    /** Ctrl+W: close the current tab, if there is one. */
    method CloseCurrentTab()
      requires Valid()
      modifies this`tabs, this`current
      ensures Valid()
      ensures old(current) < 0 ==> State() == old(State())
      ensures old(current) >= 0 ==>
        State() == old(State()).(tabs := RemoveAt(old(tabs), old(current)), current := current)
    {
      var index := current;
      if index >= 0 {
        CloseTab(index);
      }
    }

    /** Make tab `index` current if it exists; otherwise nothing changes. */
    method SwitchTab(index: int)
      requires Valid()
      modifies this`current
      ensures Valid()
      ensures 0 <= index < |old(tabs)| ==> State() == old(State()).(current := index)
      ensures !(0 <= index < |old(tabs)|) ==> State() == old(State())
    {
      if 0 <= index < |tabs| {
        current := index;
      }
    }

    /** Ctrl+`digit` for `digit` from 1 to 9. */
    method SwitchTabShortcut(digit: int)
      requires Valid() && 1 <= digit <= 9
      modifies this`current
      ensures Valid()
      ensures digit <= |old(tabs)| ==> State() == old(State()).(current := digit - 1)
      ensures digit > |old(tabs)| ==> State() == old(State())
    {
      SwitchTab(ShortcutTab(digit));
    }
  }
}
