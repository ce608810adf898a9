/**
 * Sequences of user actions on one browser window, and what the session
 * promises about them when taken together.
 */
module Scenarios {
  import opened Wrappers
  import opened Resolution
  import opened History
  import opened Browser

  /** Pressing the incognito button twice leaves the whole session as it was. */
  method ToggleIncognitoTwice(b: WebBrowser)
    requires b.Valid()
    modifies b
    ensures b.Valid() && b.State() == old(b.State())
  {
    b.ToggleIncognitoMode();
    b.ToggleIncognitoMode();
  }

  /**
   * A tab opened before the incognito button is pressed keeps its profile; a
   * tab opened after it gets the new one.
   */
  method PrivacyFixedAtCreation(b: WebBrowser)
    requires b.Valid()
    modifies b
    ensures b.Valid() && |b.tabs| == |old(b.tabs)| + 2
    ensures b.tabs[..|old(b.tabs)|] == old(b.tabs)
    ensures b.tabs[|old(b.tabs)|].isPrivate == old(b.incognitoMode)
    ensures b.tabs[|old(b.tabs)| + 1].isPrivate == !old(b.incognitoMode)
    ensures b.incognitoMode == !old(b.incognitoMode)
  {
    b.NewTab(None);
    b.ToggleIncognitoMode();
    b.NewTab(None);
  }

  /** Saving the same page twice gives two bookmark entries, in memory and in the file. */
  method BookmarkTwice(b: WebBrowser)
    requires b.Valid() && b.tabs != []
    modifies b, b.disk
    ensures b.Valid()
    ensures var url := old(b.tabs[b.current].url);
      b.bookmarks == old(b.bookmarks) + [url, url] && b.disk.bookmarksFile == Some(b.bookmarks)
  {
    b.SaveBookmark();
    b.SaveBookmark();
  }

  /** Appending a non-empty run is appending its first element, then the rest. */
  lemma AppendFirst(h: seq<string>, texts: seq<string>)
    requires texts != []
    ensures h + texts == (h + [texts[0]]) + texts[1..]
  {
    assert texts == [texts[0]] + texts[1..];
  }

  /** One typed visit, as `VisitAll` sees it: the session stays valid and only the history grows. */
  method Visit(b: WebBrowser, tab: int, text: string)
    requires b.Valid() && 0 <= tab < |b.tabs|
    requires IsLiteralAddress(text) || b.selectedSearchEngine in SearchEngines()
    modifies b, b.disk
    ensures b.Valid() && |b.tabs| == |old(b.tabs)|
    ensures b.incognitoMode == old(b.incognitoMode) && b.selectedSearchEngine == old(b.selectedSearchEngine)
    ensures b.history == if b.incognitoMode then old(b.history) else old(b.history) + [text]
  {
    b.LoadUrl(tab, text);
  }

  /**
   * Typing `texts` one after another into the address bar of tab `tab`:
   * outside incognito mode the history, and the file a restart would load,
   * grow by exactly those texts in that order; in incognito mode neither
   * changes.
   */
  method VisitAll(b: WebBrowser, tab: int, texts: seq<string>)
    requires b.Valid() && 0 <= tab < |b.tabs|
    requires forall k | 0 <= k < |texts| :: IsLiteralAddress(texts[k]) || b.selectedSearchEngine in SearchEngines()
    modifies b, b.disk
    ensures b.Valid() && b.incognitoMode == old(b.incognitoMode) && |b.tabs| == |old(b.tabs)|
    ensures b.history == if b.incognitoMode then old(b.history) else old(b.history) + texts
    ensures LoadHistory(b.disk.historyFile) == b.history
    decreases |texts|
  {
    if texts != [] {
      Visit(b, tab, texts[0]);
      VisitAll(b, tab, texts[1..]);
      AppendFirst(old(b.history), texts);
    }
  }

  /** Closing the only tab leaves no tab and no current index. */
  method CloseOnlyTab(b: WebBrowser)
    requires b.Valid() && |b.tabs| == 1
    modifies b
    ensures b.Valid() && b.tabs == [] && b.current == -1
  {
    b.CloseCurrentTab();
  }

  /**
   * `new_tab` as written: in a fresh session, pressing the incognito button
   * and then asking for a new tab raises on `setProfile` and no tab opens.
   */
  method IncognitoNewTabAsWritten() returns (error: Option<string>, tabs: seq<Tab>)
    ensures error == Some("setProfile")
    ensures |tabs| == 1 && !tabs[0].isPrivate
  {
    var disk := new Disk(None, None, None);
    var b := new WebBrowser(disk);
    b.ToggleIncognitoMode();
    error := b.NewTabAsWritten(None);
    tabs := b.tabs;
  }

  /**
   * `handle_download` as written: a fresh session's tab offers a download,
   * the handler raises on `fileName`, and nothing is recorded.
   */
  method DownloadAsWritten() returns (error: Option<string>, downloads: seq<string>)
    ensures error == Some("fileName") && downloads == []
  {
    var disk := new Disk(None, None, None);
    var b := new WebBrowser(disk);
    error := b.HandleDownloadAsWritten("report.pdf");
    downloads := b.downloads;
  }

  /**
   * A fresh session already has one non-private tab; after opening a second,
   * one download from the first tab's shared profile is recorded twice.
   */
  method SharedProfileDownload() returns (downloads: seq<string>)
    ensures downloads == ["report.pdf", "report.pdf"]
  {
    var disk := new Disk(None, None, None);
    var b := new WebBrowser(disk);
    b.NewTab(None);
    b.DownloadRequested(0, "report.pdf");
    downloads := b.downloads;
  }
}
