/** The link preview of `usePreview`: the scraped page record returned by the
    preview endpoint is turned into the `{title, description, url, thumbnail}`
    record the page renders, with a fixed fallback for every field and one
    fixed record for every failure. The HTTP request is not modelled; its
    outcome is an input. */
module LinkPreview {
  import opened Wrappers
  import PreviewTarget

  const FALLBACK_THUMBNAIL: string := "https://picsum.photos/id/1025/200"
  const NO_TITLE: string := "(No title)"
  const NO_PREVIEW: string := "(No preview)"

  /** The scraped page, as the preview endpoint returns it; every field may be
      missing. */
  datatype Scraped = Scraped(
    url: Option<string>,
    title: Option<string>,
    siteName: Option<string>,
    description: Option<string>,
    images: Option<seq<string>>,
    favicons: Option<seq<string>>)

  /** Outcome of the POST to the preview endpoint: the request threw, it
      answered with a null body, or it answered with a scraped page. */
  datatype Response = RequestFailed | NullBody | Body(page: Scraped)

  /** The record the hook publishes. */
  datatype Preview = Preview(title: string, description: string, url: string, thumbnail: string)

  /** JavaScript truthiness of an optional string: missing and empty are falsy. */
  predicate Truthy(v: Option<string>) {
    v.Some? && v.value != ""
  }

  /** JavaScript's `c0 || c1 || ... || last`: the first truthy candidate, or
      `last` when none is. */
  function FirstTruthy(cands: seq<Option<string>>, last: string): (r: string)
    ensures r == last || exists i :: 0 <= i < |cands| && Truthy(cands[i]) && r == cands[i].value
    ensures last != "" ==> r != ""
  {
    if cands == [] then last
    else if Truthy(cands[0]) then cands[0].value
    else FirstTruthy(cands[1..], last)
  }

  /** The chain yields the first truthy candidate: every one before it is
      skipped, everything after it is ignored. */
  lemma {:induction false} FirstTruthyPicksFirst(cands: seq<Option<string>>, last: string, i: nat)
    requires i < |cands| && Truthy(cands[i])
    requires forall j :: 0 <= j < i ==> !Truthy(cands[j])
    ensures FirstTruthy(cands, last) == cands[i].value
  {
    if i > 0 {
      assert !Truthy(cands[0]);
      FirstTruthyPicksFirst(cands[1..], last, i - 1);
    }
  }

  /** When no candidate is truthy the chain yields `last`. */
  lemma {:induction false} FirstTruthyNone(cands: seq<Option<string>>, last: string)
    requires forall j :: 0 <= j < |cands| ==> !Truthy(cands[j])
    ensures FirstTruthy(cands, last) == last
  {
    if cands != [] {
      assert !Truthy(cands[0]);
      FirstTruthyNone(cands[1..], last);
    }
  }

  /** Thumbnail: the first image, else the second favicon, else the fallback.
      The result is always one of the scraped pictures or the fallback, and
      the fallback is used whenever there is no image and fewer than two
      favicons. */
  function Thumbnail(p: Scraped): (r: string)
    ensures r == FALLBACK_THUMBNAIL
         || (p.images.Some? && r in p.images.value)
         || (p.favicons.Some? && r in p.favicons.value)
    ensures (p.images.Some? && |p.images.value| > 0) ==> r == p.images.value[0]
    ensures (p.images.None? || |p.images.value| == 0) && p.favicons.Some? && |p.favicons.value| > 1
            ==> r == p.favicons.value[1]
    ensures (p.images.None? || |p.images.value| == 0) && (p.favicons.None? || |p.favicons.value| <= 1)
            ==> r == FALLBACK_THUMBNAIL
  {
    if p.images.Some? && |p.images.value| > 0 then p.images.value[0]
    else if p.favicons.Some? && |p.favicons.value| > 1 then p.favicons.value[1]
    else FALLBACK_THUMBNAIL
  }

  /** Title: the site name, else the page title, else `(No title)`; never empty. */
  function Title(p: Scraped): (r: string)
    ensures r != ""
    ensures r == NO_TITLE || (Truthy(p.siteName) && r == p.siteName.value) || (Truthy(p.title) && r == p.title.value)
  {
    FirstTruthy([p.siteName, p.title], NO_TITLE)
  }

  /** The site name takes precedence over the page title, and the page title
      over the constant. */
  lemma TitleOrder(p: Scraped)
    ensures Truthy(p.siteName) ==> Title(p) == p.siteName.value
    ensures !Truthy(p.siteName) && Truthy(p.title) ==> Title(p) == p.title.value
    ensures !Truthy(p.siteName) && !Truthy(p.title) ==> Title(p) == NO_TITLE
  {
    var cands := [p.siteName, p.title];
    if Truthy(p.siteName) {
      FirstTruthyPicksFirst(cands, NO_TITLE, 0);
    } else if Truthy(p.title) {
      FirstTruthyPicksFirst(cands, NO_TITLE, 1);
    } else {
      FirstTruthyNone(cands, NO_TITLE);
    }
  }

  /** Description: the scraped one, or the empty string. */
  function Description(p: Scraped): (r: string)
    ensures r == "" <==> !Truthy(p.description)
    ensures r != "" ==> p.description == Some(r)
  {
    FirstTruthy([p.description], "")
  }

  /** The record built from a scraped page, with the page URL falling back to
      the target. */
  function Fields(target: string, p: Scraped): (r: Preview)
    ensures r.title != ""
    ensures Truthy(p.url) ==> r.url == p.url.value
    ensures !Truthy(p.url) ==> r.url == target
  {
    var url := FirstTruthy([p.url], target);
    assert !Truthy(p.url) ==> url == target by {
      if !Truthy(p.url) { FirstTruthyNone([p.url], target); }
    }
    Preview(Title(p), Description(p), url, Thumbnail(p))
  }

  /** The single record that stands for every failure. */
  function NoPreview(target: string): Preview {
    Preview(NO_PREVIEW, "", target, FALLBACK_THUMBNAIL)
  }

  /** The effect body as written. A failed request, a null body, and also a
      page without a URL all end in the catch block: the last one because the
      warning is issued through `console.warning`, which is not a console
      method, so the call throws after the record has been computed. */
  function BuildPreviewAsWritten(target: string, resp: Response): (r: Preview)
    ensures !resp.Body? ==> r == NoPreview(target)
    ensures resp.Body? && !Truthy(resp.page.url) ==> r == NoPreview(target)
    ensures resp.Body? && Truthy(resp.page.url) ==> r.url == resp.page.url.value
    ensures resp.Body? && Truthy(resp.page.url)
            ==> r.title == Title(resp.page) && r.description == Description(resp.page)
                && r.thumbnail == Thumbnail(resp.page)
  {
    match resp
    case RequestFailed => NoPreview(target)
    case NullBody => NoPreview(target)
    case Body(p) => if !Truthy(p.url) then NoPreview(target) else Fields(target, p)
  }

  /** The effect body as evidently intended: a page without a URL is shown
      with the target as its URL. Only a failed request or a null body gives
      the failure record; a scraped page keeps its title, description and
      thumbnail, and the URL is never empty when the target is not. */
  function BuildPreview(target: string, resp: Response): (r: Preview)
    ensures !resp.Body? ==> r == NoPreview(target)
    ensures resp.Body? ==> r.title == Title(resp.page) && r.description == Description(resp.page)
                           && r.thumbnail == Thumbnail(resp.page)
    ensures resp.Body? && Truthy(resp.page.url) ==> r.url == resp.page.url.value
    ensures resp.Body? && !Truthy(resp.page.url) ==> r.url == target
    ensures r.title != ""
    ensures target != "" ==> r.url != ""
  {
    match resp
    case RequestFailed => NoPreview(target)
    case NullBody => NoPreview(target)
    case Body(p) => Fields(target, p)
  }

  /** The two versions differ only on a page without a URL. */
  lemma AsWrittenAgreesWhenUrlPresent(target: string, resp: Response)
    requires !resp.Body? || Truthy(resp.page.url)
    ensures BuildPreviewAsWritten(target, resp) == BuildPreview(target, resp)
  {
  }

  /** A page whose URL is missing loses its scraped title as written, and keeps
      it as intended. */
  lemma MissingUrlDiscardsPage()
    ensures
      var page := Scraped(None, None, Some("Example"), Some("A page"), Some(["https://e.org/a.png"]), None);
      BuildPreviewAsWritten("http://e.org", Body(page)).title == NO_PREVIEW
      && BuildPreview("http://e.org", Body(page))
         == Preview("Example", "A page", "http://e.org", "https://e.org/a.png")
  {
    var page := Scraped(None, None, Some("Example"), Some("A page"), Some(["https://e.org/a.png"]), None);
    FirstTruthyNone([page.url], "http://e.org");
  }

  /** The hook's state: the current target (null until the first
      `setTarget`) and the last preview (null until the first response). */
  class PreviewHook {
    var target: Option<string>
    var data: Option<Preview>

    /** No preview exists while there is no target, and every published
        preview has a title. */
    ghost predicate Valid()
      reads this
    {
      (target.None? ==> data.None?)
      && (data.Some? ==> data.value.title != "")
    }

    /** Mount: the effect sees a null target and does nothing. */
    constructor ()
      ensures Valid()
      ensures target.None? && data.None?
    {
      target := None;
      data := None;
    }

    /** `setTarget(url)`, followed by the effect when the normalised target
        differs from the current one; `resp` is the outcome of the preview
        request for that target. Setting the same target again does not
        re-run the effect, so the preview is not refreshed. */
    method SetTarget(url: string, resp: Response) returns (fetched: bool)
      requires Valid()
      modifies this
      ensures Valid()
      ensures target == Some(PreviewTarget.Normalise(url))
      ensures fetched <==> old(target) != target
      ensures fetched ==> data == Some(BuildPreview(target.value, resp))
      ensures !fetched ==> data == old(data)
    {
      var next := PreviewTarget.Normalise(url);
      fetched := target != Some(next);
      target := Some(next);
      if fetched {
        data := Some(BuildPreview(next, resp));
      }
    }
  }
}
