/** The preview pane, single downloads, and the object URLs both bring in. */
module LedgerViewer {
  import opened Options
  import opened Json
  import opened LedgerModel
  import opened LedgerSession

  datatype Preview = Preview(item: Item, waiting: bool, url: Option<Url>, error: Option<Code>)

  datatype PreviewCall = PreviewCall(version: nat, key: Key)

  datatype Viewer = Viewer(version: nat, preview: Option<Preview>, calls: map<Id, Request<PreviewCall>>, next: Id)

  datatype Notice = DownloadStarted | Failed(code: Code)

  datatype Downloads = Downloads(busy: set<Key>, notices: map<Key, Notice>, calls: map<Id, Request<Key>>, next: Id)

  /** Every URL that came in, was released, or was handed to the browser. */
  datatype Urls = Urls(returned: multiset<Url>, released: multiset<Url>, saved: multiset<Url>)

  // ---------------------------------------------------------------- URLs

  function Bring(u: Urls, url: Url): Urls { u.(returned := u.returned + multiset{url}) }

  function Release(u: Urls, url: Option<Url>): Urls {
    if url.Some? then u.(released := u.released + multiset{url.value}) else u
  }

  function Save(u: Urls, url: Url): Urls { u.(saved := u.saved + multiset{url}) }

  function Held(v: Viewer): Option<Url> {
    if v.preview.Some? then v.preview.value.url else None
  }

  function AsMultiset(url: Option<Url>): multiset<Url> {
    if url.Some? then multiset{url.value} else multiset{}
  }

  /** Nothing is lost and nothing is released twice. */
  predicate UrlsBalance(v: Viewer, u: Urls) {
    u.returned == u.released + u.saved + AsMultiset(Held(v))
  }

  // ---------------------------------------------------------------- preview

  function ClosePreview(v: Viewer): Viewer { v.(version := v.version + 1, preview := None) }

  function StartPreview(ss: Session, v: Viewer, item: Item): Viewer {
    v.(version := v.version + 1, preview := Some(Preview(item, true, None, None)),
       calls := File(ss, v.next, v.calls, PreviewCall(v.version + 1, item.key)), next := v.next + 1)
  }

  predicate Shown(ss: Session, v: Viewer, r: Request<PreviewCall>) {
    r.call.version == v.version && r.epoch == ss.epoch && v.preview.Some?
  }

  function EndPreview(v: Viewer, version: nat): Viewer {
    if version == v.version && v.preview.Some? then v.(preview := Some(v.preview.value.(waiting := false))) else v
  }

  function PreviewArrives(ss: Session, v: Viewer, id: Id, url: Url): Viewer
    requires id in v.calls
  {
    var r := v.calls[id];
    var t := v.(calls := v.calls - {id});
    var u := if Shown(ss, v, r) then t.(preview := Some(v.preview.value.(url := Some(url)))) else t;
    EndPreview(u, r.call.version)
  }

  function PreviewUrls(ss: Session, v: Viewer, id: Id, u: Urls, url: Url): Urls
    requires id in v.calls
  {
    if Shown(ss, v, v.calls[id]) then Bring(u, url) else Release(Bring(u, url), Some(url))
  }

  function PreviewFails(ss: Session, v: Viewer, r: Request<PreviewCall>, code: Code): Viewer {
    var t := if Shown(ss, v, r) then v.(preview := Some(v.preview.value.(error := Some(code)))) else v;
    EndPreview(t, r.call.version)
  }

  /** The pane waits exactly while the call of its version is in flight, and holds no URL until then. */
  ghost predicate ViewerOk(ss: Session, v: Viewer) {
    && Dated(ss, v.next, v.calls)
    && (forall i | i in v.calls ::
          && v.calls[i].call.version <= v.version
          && (v.calls[i].call.version == v.version && v.preview.Some? ==>
                v.calls[i].epoch == ss.epoch && v.preview.value.waiting && v.preview.value.url.None?))
    && (forall i, j | i in v.calls && j in v.calls && v.calls[i].call.version == v.calls[j].call.version :: i == j)
    && (forall i | i in v.calls && v.calls[i].call.version == v.version :: v.preview.Some?)
    && (v.preview.Some? && v.preview.value.waiting ==> exists i | i in v.calls :: v.calls[i].call.version == v.version)
  }

  lemma ClosePreviewOk(ss: Session, t: Session, v: Viewer, u: Urls)
    requires ViewerOk(ss, v) && UrlsBalance(v, u)
    requires t.epoch > ss.epoch || t == ss
    ensures ViewerOk(t, ClosePreview(v)) && UrlsBalance(ClosePreview(v), Release(u, Held(v)))
  {
  }

  lemma StartPreviewOk(ss: Session, v: Viewer, u: Urls, item: Item)
    requires ViewerOk(ss, v) && UrlsBalance(v, u) && SignedIn(ss)
    ensures ViewerOk(ss, StartPreview(ss, v, item)) && UrlsBalance(StartPreview(ss, v, item), Release(u, Held(v)))
  {
    var t := StartPreview(ss, v, item);
    assert v.next in t.calls && t.calls[v.next].call.version == t.version;
  }

  lemma PreviewArrivesOk(ss: Session, v: Viewer, u: Urls, id: Id, url: Url)
    requires ViewerOk(ss, v) && UrlsBalance(v, u) && id in v.calls
    ensures ViewerOk(ss, PreviewArrives(ss, v, id, url))
    ensures UrlsBalance(PreviewArrives(ss, v, id, url), PreviewUrls(ss, v, id, u, url))
  {
    var t := PreviewArrives(ss, v, id, url);
    assert forall i | i in t.calls :: i in v.calls && t.calls[i] == v.calls[i];
    if v.preview.Some? && v.preview.value.waiting && v.calls[id].call.version != v.version {
      var i :| i in v.calls && v.calls[i].call.version == v.version;
      assert i in t.calls && t.calls[i].call.version == t.version;
    }
  }

  lemma PreviewFailsOk(ss: Session, v: Viewer, u: Urls, id: Id, code: Code)
    requires ViewerOk(ss, v) && UrlsBalance(v, u) && id in v.calls
    ensures var t := PreviewFails(ss, v.(calls := v.calls - {id}), v.calls[id], code);
      ViewerOk(ss, t) && UrlsBalance(t, u)
  {
    var t := PreviewFails(ss, v.(calls := v.calls - {id}), v.calls[id], code);
    assert forall i | i in t.calls :: i in v.calls && t.calls[i] == v.calls[i];
    if v.preview.Some? && v.preview.value.waiting && v.calls[id].call.version != v.version {
      var i :| i in v.calls && v.calls[i].call.version == v.version;
      assert i in t.calls && t.calls[i].call.version == t.version;
    }
  }

  // ---------------------------------------------------------------- downloads

  function StopDownloads(d: Downloads): Downloads { d.(busy := {}) }

  function StartDownload(ss: Session, d: Downloads, key: Key): Downloads {
    d.(busy := d.busy + {key}, notices := d.notices - {key},
       calls := File(ss, d.next, d.calls, key), next := d.next + 1)
  }

  /** The end of a download of the current epoch; a stale one is only taken off. */
  function EndDownload(ss: Session, d: Downloads, id: Id, notice: Notice): Downloads
    requires id in d.calls
  {
    var r, t := d.calls[id], d.(calls := d.calls - {id});
    if r.epoch == ss.epoch then t.(busy := d.busy - {r.call}, notices := d.notices[r.call := notice]) else t
  }

  function DownloadUrls(ss: Session, d: Downloads, id: Id, u: Urls, url: Url): Urls
    requires id in d.calls
  {
    if d.calls[id].epoch == ss.epoch then Save(Bring(u, url), url) else Release(Bring(u, url), Some(url))
  }

  /** A file is marked as downloading exactly while one call of this epoch fetches it. */
  ghost predicate DownloadsOk(ss: Session, d: Downloads) {
    && Claimed(ss, d.next, d.calls, d.busy)
    && (!SignedIn(ss) ==> d.busy == {})
  }

  lemma StopDownloadsOk(ss: Session, t: Session, d: Downloads)
    requires DownloadsOk(ss, d) && t.epoch > ss.epoch && !SignedIn(t)
    ensures DownloadsOk(t, StopDownloads(d))
  {
    ClaimOutdated(ss, t, d.next, d.calls, d.busy, {});
  }

  lemma StartDownloadOk(ss: Session, d: Downloads, key: Key)
    requires DownloadsOk(ss, d) && SignedIn(ss) && key !in d.busy
    ensures DownloadsOk(ss, StartDownload(ss, d, key))
  {
    ClaimAdded(ss, d.next, d.calls, d.busy, key);
  }

  lemma EndDownloadOk(ss: Session, d: Downloads, id: Id, notice: Notice)
    requires DownloadsOk(ss, d) && id in d.calls
    ensures DownloadsOk(ss, EndDownload(ss, d, id, notice))
    ensures var t, key := EndDownload(ss, d, id, notice), d.calls[id].call;
      if d.calls[id].epoch == ss.epoch
      then key in d.busy && t.busy == d.busy - {key} && t.notices == d.notices[key := notice]
      else t.busy == d.busy && t.notices == d.notices
  {
    ClaimTaken(ss, d.next, d.calls, d.busy, id);
  }

  lemma ViewerMoved(ss: Session, t: Session, v: Viewer, d: Downloads)
    requires ViewerOk(ss, v) && DownloadsOk(ss, d) && Moved(ss, t)
    ensures ViewerOk(t, v) && DownloadsOk(t, d) && DownloadsOk(t, d.(notices := map[]))
  {
    ClaimMoved(ss, t, d.next, d.calls, d.busy);
  }
}
