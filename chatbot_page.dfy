/** The PDF chat page: loading the document handed over by navigation or remembered in the
    session, the object URL made for it, deleting it, leaving the page, and the cleanup that
    should release the object URL when the page goes away. */
module Chatbot {
  import opened Common

  /** The session key under which the current document is remembered. */
  const SessionKey := "currentPDF"
  const DashboardPath := "/dashboard"
  const ReuploadMessage := "PDF needs to be re-uploaded after page refresh"
  const LoadFailedMessage := "Failed to load PDF document"

  /** An object URL: none (the empty string), or the handle of one the browser made. */
  datatype Url = NoUrl | Blob(handle: nat)

  /** A session entry: a readable record of a document, or text that does not parse. */
  datatype Stored = Record(name: string, timestamp: int) | Unreadable

  /** The uploaded document as navigation hands it over. */
  datatype File = File(name: string)

  /** The browser services the page uses: session storage and the table of live object URLs. */
  class Browser {
    var session: map<string, Stored>
    var live: set<nat>
    var nextHandle: nat

    /** Every live handle was handed out before, so the next one is new. */
    ghost predicate Valid()
      reads this
    {
      forall h :: h in live ==> h < nextHandle
    }

    constructor (session: map<string, Stored>)
      ensures this.session == session && live == {} && nextHandle == 0
      ensures Valid()
    {
      this.session := session;
      live := {};
      nextHandle := 0;
    }

    /** `URL.createObjectURL`: a handle that was not live before, and is now. */
    method CreateObjectUrl() returns (u: Url)
      requires Valid()
      modifies this
      ensures u.Blob? && u.handle !in old(live)
      ensures live == old(live) + {u.handle} && session == old(session)
      ensures nextHandle == old(nextHandle) + 1
      ensures Valid()
    {
      u := Blob(nextHandle);
      live := live + {nextHandle};
      nextHandle := nextHandle + 1;
    }

    /** `URL.revokeObjectURL`. */
    method Revoke(u: Url)
      modifies this
      ensures live == if u.Blob? then old(live) - {u.handle} else old(live)
      ensures session == old(session) && nextHandle == old(nextHandle)
      ensures old(Valid()) ==> Valid()
    {
      if u.Blob? {
        live := live - {u.handle};
      }
    }
  }

  /** What the page shows: the error, the document viewer, or the loading text. */
  datatype Screen = ErrorText(message: string) | Viewer(url: Url, name: string) | LoadingText

  class ChatbotPage {
    var pdfUrl: Url
    var fileName: string
    var error: string
    /** Where the page last navigated, if anywhere. */
    var navigatedTo: Option<string>
    /** The `pdfUrl` the cleanup function closed over: the one of the first render. */
    var cleanupUrl: Url
    const browser: Browser

    /** Mounting: the state starts empty and the effect's cleanup captures that empty URL. */
    constructor (browser: Browser)
      ensures this.browser == browser
      ensures pdfUrl == NoUrl && fileName == "" && error == "" && navigatedTo == None
      ensures cleanupUrl == NoUrl
    {
      this.browser := browser;
      pdfUrl := NoUrl;
      fileName := "";
      error := "";
      navigatedTo := None;
      cleanupUrl := NoUrl;
    }

    /** The render's conditional: an error wins, then the viewer for a live document. */
    function Shown(): (r: Screen)
      reads this
      ensures r.ErrorText? <==> error != ""
      ensures r.Viewer? <==> error == "" && pdfUrl.Blob?
      ensures r.Viewer? ==> r.url == pdfUrl && r.name == fileName
    {
      if error != "" then ErrorText(error)
      else if pdfUrl.Blob? then Viewer(pdfUrl, fileName)
      else LoadingText
    }

    /** `loadPDF`. A handed-over document gets a new object URL and is remembered in the
        session with the time `now`; writing the session entry can fail (`storageFails`),
        which reports the load error and goes back to the dashboard with the URL already
        made. Without a document, a readable session record restores the name and asks for
        a new upload; an unreadable one reports the load error and goes back; no record
        goes back. */
    method LoadPDF(stateFile: Option<File>, now: int, storageFails: bool)
      requires browser.Valid()
      modifies this, browser
      ensures browser.Valid() && cleanupUrl == old(cleanupUrl)
      ensures stateFile.Some? ==>
                && pdfUrl.Blob? && pdfUrl.handle !in old(browser.live)
                && browser.live == old(browser.live) + {pdfUrl.handle}
                && fileName == stateFile.value.name
                && (if storageFails
                    then browser.session == old(browser.session) && error == LoadFailedMessage
                         && navigatedTo == Some(DashboardPath)
                    else browser.session == old(browser.session)[SessionKey := Record(stateFile.value.name, now)]
                         && error == old(error) && navigatedTo == old(navigatedTo))
      ensures stateFile.None? ==>
                && pdfUrl == old(pdfUrl) && browser.live == old(browser.live)
                && browser.session == old(browser.session)
                && (if SessionKey !in browser.session
                    then fileName == old(fileName) && error == old(error) && navigatedTo == Some(DashboardPath)
                    else match browser.session[SessionKey]
                         case Record(name, _) =>
                           fileName == name && error == ReuploadMessage && navigatedTo == old(navigatedTo)
                         case Unreadable =>
                           fileName == old(fileName) && error == LoadFailedMessage && navigatedTo == Some(DashboardPath))
    {
      if stateFile.Some? {
        var url := browser.CreateObjectUrl();
        pdfUrl := url;
        fileName := stateFile.value.name;
        if storageFails {
          error := LoadFailedMessage;
          navigatedTo := Some(DashboardPath);
        } else {
          browser.session := browser.session[SessionKey := Record(stateFile.value.name, now)];
        }
        return;
      }
      if SessionKey in browser.session {
        match browser.session[SessionKey] {
          case Record(name, _) =>
            fileName := name;
            error := ReuploadMessage;
          case Unreadable =>
            error := LoadFailedMessage;
            navigatedTo := Some(DashboardPath);
        }
      } else {
        navigatedTo := Some(DashboardPath);
      }
    }

    /** `handleDelete`: forget the session entry, release the URL, go back. */
    method HandleDelete()
      modifies this, browser
      ensures SessionKey !in browser.session
      ensures browser.session == old(browser.session) - {SessionKey}
      ensures browser.live == if old(pdfUrl).Blob? then old(browser.live) - {old(pdfUrl).handle} else old(browser.live)
      ensures old(browser.Valid()) ==> browser.Valid()
      ensures navigatedTo == Some(DashboardPath)
      ensures pdfUrl == old(pdfUrl) && fileName == old(fileName) && error == old(error)
      ensures cleanupUrl == old(cleanupUrl)
    {
      browser.session := browser.session - {SessionKey};
      browser.Revoke(pdfUrl);
      navigatedTo := Some(DashboardPath);
    }

    /** `handleBack`: go back, releasing nothing. */
    method HandleBack()
      modifies this
      ensures navigatedTo == Some(DashboardPath)
      ensures pdfUrl == old(pdfUrl) && fileName == old(fileName) && error == old(error)
      ensures cleanupUrl == old(cleanupUrl)
      ensures browser.session == old(browser.session) && browser.live == old(browser.live)
    {
      navigatedTo := Some(DashboardPath);
    }

    /** The effect's cleanup as written: it tests the URL it closed over at mount. */
    method UnmountAsWritten()
      modifies browser
      ensures browser.live == if cleanupUrl.Blob? then old(browser.live) - {cleanupUrl.handle} else old(browser.live)
      ensures browser.session == old(browser.session) && browser.nextHandle == old(browser.nextHandle)
      ensures old(browser.Valid()) ==> browser.Valid()
    {
      if cleanupUrl.Blob? {
        browser.Revoke(cleanupUrl);
      }
    }

    /** The cleanup as intended: it releases the URL the page holds when it goes away. */
    method UnmountCorrected()
      modifies browser
      ensures browser.live == if pdfUrl.Blob? then old(browser.live) - {pdfUrl.handle} else old(browser.live)
      ensures pdfUrl.Blob? ==> pdfUrl.handle !in browser.live
      ensures browser.session == old(browser.session) && browser.nextHandle == old(browser.nextHandle)
      ensures old(browser.Valid()) ==> browser.Valid()
    {
      browser.Revoke(pdfUrl);
    }
  }

  /** Opening the page with a document shows it under its name and remembers it; opening it
      again after a reload, with the record but no document, asks for a new upload. */
  method ReloadNeedsReupload(file: File, now: int) returns (first: Screen, second: Screen)
    ensures first.Viewer? && first.name == file.name
    ensures second == ErrorText(ReuploadMessage)
  {
    var b := new Browser(map[]);
    var page := new ChatbotPage(b);
    page.LoadPDF(Some(file), now, false);
    first := page.Shown();
    var again := new ChatbotPage(b);
    again.LoadPDF(None, now, false);
    second := again.Shown();
  }

  /** Without a document or a record, the page goes straight back to the dashboard. */
  method NothingToLoad() returns (target: Option<string>, shown: Screen)
    ensures target == Some(DashboardPath) && shown == LoadingText
  {
    var b := new Browser(map[]);
    var page := new ChatbotPage(b);
    page.LoadPDF(None, 0, false);
    target, shown := page.navigatedTo, page.Shown();
  }

  /** As written: load a document, leave with the back button, unmount; the object URL made
      for the document is still live. */
  method LeakAsWritten(session: map<string, Stored>, file: File, now: int) returns (leaked: bool)
    ensures leaked
  {
    var b := new Browser(session);
    var page := new ChatbotPage(b);
    page.LoadPDF(Some(file), now, false);
    var url := page.pdfUrl;
    page.HandleBack();
    page.UnmountAsWritten();
    leaked := url.Blob? && url.handle in b.live;
  }

  /** As written, every visit that leaves by the back button leaks its object URL: after
      two such visits both handles are still live. */
  method LeaksAccumulate(session: map<string, Stored>, first: File, second: File, now: int)
    returns (bothLive: bool)
    ensures bothLive
  {
    var b := new Browser(session);
    var page := new ChatbotPage(b);
    page.LoadPDF(Some(first), now, false);
    var url1 := page.pdfUrl;
    page.HandleBack();
    page.UnmountAsWritten();
    var again := new ChatbotPage(b);
    again.LoadPDF(Some(second), now, false);
    var url2 := again.pdfUrl;
    again.HandleBack();
    again.UnmountAsWritten();
    bothLive := url1.Blob? && url2.Blob? && url1 != url2 && url1.handle in b.live && url2.handle in b.live;
  }

  /** Corrected: the same steps release the object URL. */
  method NoLeakCorrected(session: map<string, Stored>, file: File, now: int) returns (leaked: bool)
    ensures !leaked
  {
    var b := new Browser(session);
    var page := new ChatbotPage(b);
    page.LoadPDF(Some(file), now, false);
    var url := page.pdfUrl;
    page.HandleBack();
    page.UnmountCorrected();
    leaked := url.Blob? && url.handle in b.live;
  }

  /** Deleting releases the URL in either version, so only leaving by other routes leaks. */
  method DeleteReleases(file: File, now: int) returns (leaked: bool, remembered: bool)
    ensures !leaked && !remembered
  {
    var b := new Browser(map[]);
    var page := new ChatbotPage(b);
    page.LoadPDF(Some(file), now, false);
    var url := page.pdfUrl;
    page.HandleDelete();
    page.UnmountAsWritten();
    leaked := url.Blob? && url.handle in b.live;
    remembered := SessionKey in b.session;
  }
}
