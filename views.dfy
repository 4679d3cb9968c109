/**
  The views resource: the site and views URLs, the listing of views, the fetching of a view's preview
  image and image into the view item, and the required-field checks that run before any request.
*/
module ViewsEndpoint {
  import opened Wrappers
  import opened Http
  import opened Gateway

  /** Python truthiness of an optional string: `None` and `""` both count as missing. */
  predicate Missing(s: Option<string>) {
    s.None? || s.value == ""
  }

  function SiteUrl(serverBaseUrl: string, siteId: string): string {
    serverBaseUrl + "/sites/" + siteId
  }

  function ViewsUrl(siteUrl: string): string {
    siteUrl + "/views"
  }

  function PreviewImageUrl(siteUrl: string, workbookId: string, viewId: string): string {
    siteUrl + "/workbooks/" + workbookId + "/views/" + viewId + "/previewImage"
  }

  function ImageUrl(viewsUrl: string, viewId: string): string {
    viewsUrl + "/" + viewId + "/image"
  }

  predicate NoSlash(s: string) {
    forall i :: 0 <= i < |s| ==> s[i] != '/'
  }

  /** The path segment at the start of `s`: everything up to the first '/'. */
  function Segment(s: string): (r: string)
    ensures r <= s && NoSlash(r)
    ensures |r| < |s| ==> s[|r|] == '/'
  {
    if s == [] || s[0] == '/' then [] else [s[0]] + Segment(s[1..])
  }

  /** The segment is recovered whenever it ends the string or is followed by '/'. */
  lemma SegmentOf(a: string, rest: string)
    requires NoSlash(a)
    requires rest == [] || rest[0] == '/'
    ensures Segment(a + rest) == a
  {
    var r := Segment(a + rest);
    assert r == (a + rest)[..|r|];
    assert (a + rest)[..|a|] == a;
  }

  /** The site named by a URL under the server's base URL. */
  function SiteIdOf(serverBaseUrl: string, url: string): Option<string> {
    var head := serverBaseUrl + "/sites/";
    if head <= url then Some(Segment(url[|head|..])) else None
  }

  /** The workbook and view identifiers named by a preview-image URL of the site. */
  function PreviewImageIds(siteUrl: string, url: string): Option<(string, string)> {
    var head := siteUrl + "/workbooks/";
    if !(head <= url) then None
    else
      var afterHead := url[|head|..];
      var workbookId := Segment(afterHead);
      var rest := afterHead[|workbookId|..];
      if !("/views/" <= rest) then None
      else
        var afterViews := rest[7..];
        var viewId := Segment(afterViews);
        if afterViews[|viewId|..] == "/previewImage" then Some((workbookId, viewId)) else None
  }

  /** The view identifier named by an image URL under the views URL. */
  function ImageId(viewsUrl: string, url: string): Option<string> {
    var head := viewsUrl + "/";
    if !(head <= url) then None
    else
      var afterHead := url[|head|..];
      var viewId := Segment(afterHead);
      if afterHead[|viewId|..] == "/image" then Some(viewId) else None
  }

  /** Every URL this endpoint builds for a site names that site. */
  lemma SiteUrlNamesSite(serverBaseUrl: string, siteId: string, workbookId: string, viewId: string)
    requires NoSlash(siteId)
    ensures var site := SiteUrl(serverBaseUrl, siteId);
            && SiteIdOf(serverBaseUrl, site) == Some(siteId)
            && SiteIdOf(serverBaseUrl, ViewsUrl(site)) == Some(siteId)
            && SiteIdOf(serverBaseUrl, PreviewImageUrl(site, workbookId, viewId)) == Some(siteId)
            && SiteIdOf(serverBaseUrl, ImageUrl(ViewsUrl(site), viewId)) == Some(siteId)
  {
    var head := serverBaseUrl + "/sites/";
    var site := SiteUrl(serverBaseUrl, siteId);
    var tails := ["", "/views", "/workbooks/" + workbookId + "/views/" + viewId + "/previewImage",
                  "/views/" + viewId + "/image"];
    forall t | t in tails
      ensures SiteIdOf(serverBaseUrl, site + t) == Some(siteId)
    {
      assert site + t == head + (siteId + t);
      assert (site + t)[|head|..] == siteId + t;
      SegmentOf(siteId, t);
    }
    assert ViewsUrl(site) == site + tails[1];
    assert PreviewImageUrl(site, workbookId, viewId) == site + tails[2];
    assert ImageUrl(ViewsUrl(site), viewId) == site + tails[3];
    assert site == site + tails[0];
  }

  /** A preview-image URL decodes to the workbook and view it was built from. */
  lemma PreviewImageUrlDecodes(siteUrl: string, workbookId: string, viewId: string)
    requires NoSlash(workbookId) && NoSlash(viewId)
    ensures PreviewImageIds(siteUrl, PreviewImageUrl(siteUrl, workbookId, viewId)) == Some((workbookId, viewId))
  {
    var head := siteUrl + "/workbooks/";
    var afterViews := viewId + "/previewImage";
    var rest := "/views/" + afterViews;
    var afterHead := workbookId + rest;
    var u := PreviewImageUrl(siteUrl, workbookId, viewId);
    assert u == head + afterHead;
    assert u[|head|..] == afterHead;
    SegmentOf(workbookId, rest);
    assert afterHead[|workbookId|..] == rest;
    assert rest[7..] == afterViews;
    SegmentOf(viewId, "/previewImage");
    assert afterViews[|viewId|..] == "/previewImage";
  }

  /** Only the preview-image URL of a workbook and view decodes to them. */
  lemma PreviewImageIdsEncode(siteUrl: string, url: string)
    requires PreviewImageIds(siteUrl, url).Some?
    ensures var (workbookId, viewId) := PreviewImageIds(siteUrl, url).value;
            url == PreviewImageUrl(siteUrl, workbookId, viewId)
  {
    var head := siteUrl + "/workbooks/";
    var ah := url[|head|..];
    var workbookId := Segment(ah);
    var r := ah[|workbookId|..];
    var av := r[7..];
    var viewId := Segment(av);
    assert av == viewId + "/previewImage";
    assert r == "/views/" + av;
    assert ah == workbookId + r;
    assert url == head + ah;
  }

  /** An image URL determines the view it was built from, and nothing else decodes. */
  lemma ImageUrlRoundTrip(viewsUrl: string, viewId: string, url: string)
    requires NoSlash(viewId)
    ensures ImageId(viewsUrl, ImageUrl(viewsUrl, viewId)) == Some(viewId)
    ensures ImageId(viewsUrl, url) == Some(viewId) ==> url == ImageUrl(viewsUrl, viewId)
  {
    var head := viewsUrl + "/";
    var u := ImageUrl(viewsUrl, viewId);
    assert u == head + (viewId + "/image");
    assert u[|head|..] == viewId + "/image";
    SegmentOf(viewId, "/image");
    assert (viewId + "/image")[|viewId|..] == "/image";
    if ImageId(viewsUrl, url) == Some(viewId) {
      var ah := url[|head|..];
      assert url == head + ah;
      assert ah == viewId + "/image";
    }
  }

  /** Distinct (workbook, view) pairs are fetched from distinct preview-image URLs. */
  lemma PreviewImageUrlInjective(siteUrl: string, w1: string, v1: string, w2: string, v2: string)
    requires NoSlash(w1) && NoSlash(v1) && NoSlash(w2) && NoSlash(v2)
    requires PreviewImageUrl(siteUrl, w1, v1) == PreviewImageUrl(siteUrl, w2, v2)
    ensures w1 == w2 && v1 == v2
  {
    PreviewImageUrlDecodes(siteUrl, w1, v1);
    PreviewImageUrlDecodes(siteUrl, w2, v2);
  }

  /** A view as the client holds it; tags and the other descriptive fields are not modelled. */
  class ViewItem {
    var id: Option<string>
    var workbookId: Option<string>
    var previewImage: Option<Bytes>
    var image: Option<Bytes>

    constructor (id: Option<string>, workbookId: Option<string>)
      ensures this.id == id && this.workbookId == workbookId
      ensures previewImage == None && image == None
    {
      this.id := id;
      this.workbookId := workbookId;
      previewImage := None;
      image := None;
    }
  }

  class Views {
    const endpoint: Endpoint

    constructor (endpoint: Endpoint)
      ensures this.endpoint == endpoint
    {
      this.endpoint := endpoint;
    }

    /** One authenticated GET of the views URL; the body is what the view listing is read from. */
    method Get(reqOptions: Option<RequestOptions> := None) returns (r: Result<Bytes, Error>)
      modifies endpoint.server.session
      ensures var srv := endpoint.server;
              var req := BuildRequest(Verb.Get, ViewsUrl(SiteUrl(srv.baseUrl, srv.siteId)), None, reqOptions,
                                      srv.authToken, None, map[], srv.httpOptions);
              var resp := srv.session.respond(req);
              && srv.session.log == old(srv.session.log) + [req]
              && (r.Success? <==> resp.status in SuccessCodes)
              && (r.Success? ==> r.value == resp.content)
              && (r.Failure? ==> r.error == ServerResponseError(resp.content))
    {
      var url := ViewsUrl(SiteUrl(endpoint.server.baseUrl, endpoint.server.siteId));
      var response := endpoint.GetRequest(url, reqOptions);
      if response.Failure? {
        return Failure(response.error);
      }
      r := Success(response.value.content);
    }

    /**
      Fetch a view's preview image into the item. Without both identifiers nothing is sent; on an error
      status the item is left as it was.
    */
    method PopulatePreviewImage(viewItem: ViewItem) returns (o: Outcome<Error>)
      modifies endpoint.server.session, viewItem`previewImage
      ensures Missing(viewItem.id) || Missing(viewItem.workbookId) ==>
              && o == Fail(MissingRequiredFieldError("View item missing ID or workbook ID."))
              && endpoint.server.session.log == old(endpoint.server.session.log)
              && viewItem.previewImage == old(viewItem.previewImage)
      ensures !Missing(viewItem.id) && !Missing(viewItem.workbookId) ==>
              var srv := endpoint.server;
              var url := PreviewImageUrl(SiteUrl(srv.baseUrl, srv.siteId), viewItem.workbookId.value, viewItem.id.value);
              var req := BuildRequest(Verb.Get, url, None, None, srv.authToken, None, map[], srv.httpOptions);
              var resp := srv.session.respond(req);
              && srv.session.log == old(srv.session.log) + [req]
              && (o.Pass? <==> resp.status in SuccessCodes)
              && (o.Pass? ==> viewItem.previewImage == Some(resp.content))
              && (o.Fail? ==> o.error == ServerResponseError(resp.content)
                              && viewItem.previewImage == old(viewItem.previewImage))
    {
      if Missing(viewItem.id) || Missing(viewItem.workbookId) {
        return Fail(MissingRequiredFieldError("View item missing ID or workbook ID."));
      }
      var url := PreviewImageUrl(SiteUrl(endpoint.server.baseUrl, endpoint.server.siteId),
                                 viewItem.workbookId.value, viewItem.id.value);
      var response := endpoint.GetRequest(url);
      if response.Failure? {
        return Fail(response.error);
      }
      viewItem.previewImage := Some(response.value.content);
      o := Pass;
    }

    /**
      Fetch a view's image into the item. Without an identifier nothing is sent; on an error status the
      item is left as it was.
    */
    method PopulateImage(viewItem: ViewItem, reqOptions: Option<RequestOptions> := None) returns (o: Outcome<Error>)
      modifies endpoint.server.session, viewItem`image
      ensures Missing(viewItem.id) ==>
              && o == Fail(MissingRequiredFieldError("View item missing ID."))
              && endpoint.server.session.log == old(endpoint.server.session.log)
              && viewItem.image == old(viewItem.image)
      ensures !Missing(viewItem.id) ==>
              var srv := endpoint.server;
              var url := ImageUrl(ViewsUrl(SiteUrl(srv.baseUrl, srv.siteId)), viewItem.id.value);
              var req := BuildRequest(Verb.Get, url, None, reqOptions, srv.authToken, None, map[], srv.httpOptions);
              var resp := srv.session.respond(req);
              && srv.session.log == old(srv.session.log) + [req]
              && (o.Pass? <==> resp.status in SuccessCodes)
              && (o.Pass? ==> viewItem.image == Some(resp.content))
              && (o.Fail? ==> o.error == ServerResponseError(resp.content) && viewItem.image == old(viewItem.image))
    {
      if Missing(viewItem.id) {
        return Fail(MissingRequiredFieldError("View item missing ID."));
      }
      var url := ImageUrl(ViewsUrl(SiteUrl(endpoint.server.baseUrl, endpoint.server.siteId)), viewItem.id.value);
      var response := endpoint.GetRequest(url, reqOptions);
      if response.Failure? {
        return Fail(response.error);
      }
      viewItem.image := Some(response.value.content);
      o := Pass;
    }

    /** Refuse an item without an identifier; otherwise hand back the very same item. */
    method Update(viewItem: ViewItem) returns (r: Result<ViewItem, Error>)
      ensures Missing(viewItem.id) ==>
              r == Failure(MissingRequiredFieldError("View item missing ID. View must be retrieved from server first."))
      ensures !Missing(viewItem.id) ==> r == Success(viewItem)
    {
      if Missing(viewItem.id) {
        return Failure(MissingRequiredFieldError("View item missing ID. View must be retrieved from server first."));
      }
      r := Success(viewItem);
    }
  }
}
