/** The create-post form (src/app/dashboard/blog/create/page.tsx): the media
    type guessed from the URL's extension, the two checks made before any
    request, and the outcome of the `POST`. */
module CreatePost {
  import opened Http
  import opened Text
  import opened Posts

  const ImageExtensions: seq<string> := ["jpg", "jpeg", "png", "gif"]
  const VideoExtensions: seq<string> := ["mp4", "webm", "ogg"]

  /** `s` ends in `.e` for one of the extensions. */
  predicate EndsWithOneOf(s: string, exts: seq<string>)
    ensures EndsWithOneOf(s, exts) ==> exists e :: e in exts && EndsWith(s, "." + e)
    decreases |exts|
  {
    exts != [] && (EndsWith(s, "." + exts[0]) || EndsWithOneOf(s, exts[1..]))
  }

  /** The scan over the list agrees with "some extension of the list ends `s`". */
  lemma {:induction false} EndsWithOneOfIff(s: string, exts: seq<string>)
    ensures EndsWithOneOf(s, exts) <==> exists e :: e in exts && EndsWith(s, "." + e)
    decreases |exts|
  {
    if exts != [] {
      EndsWithOneOfIff(s, exts[1..]);
      if e :| e in exts && EndsWith(s, "." + e) {
        if e != exts[0] {
          assert e in exts[1..];
        }
      }
      if e :| e in exts[1..] && EndsWith(s, "." + e) {
        assert e in exts;
      }
    }
  }

  /** The regular expressions `/\.(jpg|jpeg|png|gif)$/i` and
      `/\.(mp4|webm|ogg)$/i`, tried in that order: the match is anchored at
      the end of the URL and ignores (ASCII) case. */
  function InferMediaKind(url: string): (k: MediaKind)
    ensures k == Image <==> EndsWithOneOf(Lower(url), ImageExtensions)
    ensures k == Video <==> !EndsWithOneOf(Lower(url), ImageExtensions) && EndsWithOneOf(Lower(url), VideoExtensions)
  {
    if EndsWithOneOf(Lower(url), ImageExtensions) then Image
    else if EndsWithOneOf(Lower(url), VideoExtensions) then Video
    else Document
  }

  /** The kind, stated with the extension lists as sets of alternatives. */
  lemma MediaKindByExtension(url: string)
    ensures InferMediaKind(url) == Image <==>
              exists e :: e in ImageExtensions && EndsWith(Lower(url), "." + e)
    ensures InferMediaKind(url) == Video <==>
              (forall e :: e in ImageExtensions ==> !EndsWith(Lower(url), "." + e)) &&
              (exists e :: e in VideoExtensions && EndsWith(Lower(url), "." + e))
    ensures InferMediaKind(url) == Document <==>
              (forall e :: e in ImageExtensions + VideoExtensions ==> !EndsWith(Lower(url), "." + e))
  {
    EndsWithOneOfIff(Lower(url), ImageExtensions);
    EndsWithOneOfIff(Lower(url), VideoExtensions);
  }

  /** An upper-case extension is still an image. */
  lemma UpperCaseExtensionIsImage()
    ensures InferMediaKind("a.PNG") == Image
  {
    assert Lower("a.PNG") == "a.png";
    assert EndsWith("a.png", ".png");
    assert "png" in ImageExtensions;
    EndsWithOneOfIff("a.png", ImageExtensions);
  }

  /** A suffix shares the string's last character. */
  lemma EndsWithLast(s: string, p: string)
    requires p != []
    ensures EndsWith(s, p) ==> s[|s| - 1] == p[|p| - 1]
  {
    if EndsWith(s, p) {
      assert s[|s| - |p|..][|p| - 1] == s[|s| - 1];
    }
  }

  /** No extension of the list ends a string whose last character ends none of them. */
  lemma {:induction false} LastCharRulesOut(s: string, exts: seq<string>)
    requires s != []
    requires forall e :: e in exts ==> e != [] && e[|e| - 1] != s[|s| - 1]
    ensures !EndsWithOneOf(s, exts)
    decreases |exts|
  {
    if exts != [] {
      var e := exts[0];
      assert e in exts;
      EndsWithLast(s, "." + e);
      assert ("." + e)[|"." + e| - 1] == e[|e| - 1];
      forall e' | e' in exts[1..] ensures e' != [] && e'[|e'| - 1] != s[|s| - 1] {
        assert e' in exts;
      }
      LastCharRulesOut(s, exts[1..]);
    }
  }

  /** The extensions end in 'g', 'f', '4' or 'm'; a URL whose last character
      is none of these, in either case, is a document. */
  lemma OtherLastCharMakesDocument(url: string)
    requires url != [] && LowerChar(url[|url| - 1]) !in {'g', 'f', '4', 'm'}
    ensures InferMediaKind(url) == Document
  {
    var l := Lower(url);
    assert l[|l| - 1] == LowerChar(url[|url| - 1]);
    forall e | e in ImageExtensions ensures e != [] && e[|e| - 1] != l[|l| - 1] {
      assert e == "jpg" || e == "jpeg" || e == "png" || e == "gif";
    }
    forall e | e in VideoExtensions ensures e != [] && e[|e| - 1] != l[|l| - 1] {
      assert e == "mp4" || e == "webm" || e == "ogg";
    }
    LastCharRulesOut(l, ImageExtensions);
    LastCharRulesOut(l, VideoExtensions);
  }

  /** The match is anchored at the end: a query string after a video
      extension makes the URL a document. */
  lemma QueryStringMakesDocument()
    ensures InferMediaKind("clip.mp4?t=1") == Document
  {
    OtherLastCharMakesDocument("clip.mp4?t=1");
  }

  /** The URL input's `onChange`: an empty URL clears the media, any other
      URL is kept with the inferred kind. */
  function MediaFromUrl(url: string): (m: Option<Media>)
    ensures m.None? <==> url == ""
    ensures m.Some? ==> m.value == Media(InferMediaKind(url), url)
  {
    if url == "" then None else Some(Media(InferMediaKind(url), url))
  }

  /** What the input shows, `media?.url || ""`. */
  function ShownUrl(m: Option<Media>): (s: string)
    ensures m.Some? ==> s == m.value.url
    ensures m.None? ==> s == ""
  {
    if m.Some? then m.value.url else ""
  }

  /** Whatever is typed into the URL input is what the input then shows. */
  lemma ShownUrlRoundTrip(url: string)
    ensures ShownUrl(MediaFromUrl(url)) == url
  {
  }

  /** The checks made before any request, in order: a missing or empty token,
      then a status other than "posted" or "draft". */
  function SubmitBlocker(token: Option<string>, status: string): (r: Option<string>)
    ensures !Truthy(token) ==> r == Some("Please log in to create a post")
    ensures Truthy(token) && status != "posted" && status != "draft" ==> r == Some("Invalid status value")
    ensures r.None? <==> Truthy(token) && (status == "posted" || status == "draft")
  {
    if !Truthy(token) then Some("Please log in to create a post")
    else if status != "posted" && status != "draft" then Some("Invalid status value")
    else None
  }

  /** The error a submit ends with; `None` when the post was created. Every
      failure is thrown and caught, and the catch shows `err.message ||
      "Something went wrong"`. */
  function SubmitError(token: Option<string>, status: string, reply: FetchReply<()>): (r: Option<string>)
    ensures SubmitBlocker(token, status).Some? ==> r == SubmitBlocker(token, status)
    ensures r.None? <==> SubmitBlocker(token, status).None? && reply.Replied? && reply.json.Parsed? && IsOk(reply.status)
    ensures SubmitBlocker(token, status).None? && reply.Replied? && reply.json.Parsed? && !IsOk(reply.status) ==>
              r == Some(OrElse(reply.json.envelope.message, "Failed to create post"))
    ensures SubmitBlocker(token, status).None? && reply.NetworkError? ==>
              r == Some(OrElse(Some(reply.reason), "Something went wrong"))
    ensures SubmitBlocker(token, status).None? && reply.Replied? && reply.json.Unparsable? ==>
              r == Some(OrElse(Some(reply.json.reason), "Something went wrong"))
    ensures r.Some? ==> r.value != ""
  {
    var blocker := SubmitBlocker(token, status);
    if blocker.Some? then blocker
    else match reply
      case NetworkError(reason) => Some(OrElse(Some(reason), "Something went wrong"))
      case Replied(st, Unparsable(reason)) => Some(OrElse(Some(reason), "Something went wrong"))
      case Replied(st, Parsed(envelope)) =>
        if IsOk(st) then None else Some(OrElse(envelope.message, "Failed to create post"))
  }

  /** The body of the `POST` request. */
  datatype PostPayload = PostPayload(title: string, body: string, category: string, status: string, media: Option<Media>)

  class CreatePostForm {
    var title: string
    var body: string
    var category: string
    var status: string
    var media: Option<Media>
    var loading: bool
    var error: Option<string>
    var success: Option<string>
    var navigationPending: nat        // 1.5-second timers to the post list not yet gone off
    var navigatedTo: seq<string>      // every `router.push`, oldest first

    constructor ()
      ensures title == "" && body == "" && category == "Tech" && status == "posted" && media == None
      ensures !loading && error == None && success == None
      ensures navigationPending == 0 && navigatedTo == []
    {
      title, body, category, status, media := "", "", "Tech", "posted", None;
      loading, error, success := false, None, None;
      navigationPending, navigatedTo := 0, [];
    }

    /** The URL input's `onChange`. */
    method SetMediaUrl(url: string)
      modifies this`media
      ensures media == MediaFromUrl(url)
      ensures ShownUrl(media) == url
    {
      if url != "" {
        var kind := if EndsWithOneOf(Lower(url), ImageExtensions) then Image
                    else if EndsWithOneOf(Lower(url), VideoExtensions) then Video
                    else Document;
        media := Some(Media(kind, url));
      } else {
        media := None;
      }
    }

    /** `handleSubmit`, with the stored token and the fetch outcome as inputs.
        `sent` is the request body when a request went out: it goes out exactly
        when the two checks pass. `error` and `success` are cleared first, so
        exactly one of them is set afterwards, and `loading` ends false. */
    method HandleSubmit(token: Option<string>, reply: FetchReply<()>) returns (sent: Option<PostPayload>)
      modifies this
      ensures sent.Some? <==> SubmitBlocker(token, status).None?
      ensures sent.Some? ==> sent.value == PostPayload(title, body, category, status, media)
      ensures error == SubmitError(token, status, reply)
      ensures success.Some? <==> error.None?
      ensures success.Some? ==> success.value == "Post created successfully!"
      ensures !loading
      ensures navigationPending == old(navigationPending) + (if error.None? then 1 else 0)
      ensures navigatedTo == old(navigatedTo)
      ensures title == old(title) && body == old(body) && category == old(category)
      ensures status == old(status) && media == old(media)
    {
      loading := true;
      error := None;
      success := None;
      sent := None;
      var thrown: Option<string> := None;
      if !Truthy(token) {
        thrown := Some("Please log in to create a post");
      } else if status != "posted" && status != "draft" {
        thrown := Some("Invalid status value");
      } else {
        sent := Some(PostPayload(title, body, category, status, media));
        match reply {
          case NetworkError(reason) =>
            thrown := Some(reason);
          case Replied(st, Unparsable(reason)) =>
            thrown := Some(reason);
          case Replied(st, Parsed(envelope)) =>
            if !IsOk(st) {
              thrown := Some(OrElse(envelope.message, "Failed to create post"));
            }
        }
      }
      if thrown.Some? {
        error := Some(OrElse(thrown, "Something went wrong"));
      } else {
        success := Some("Post created successfully!");
        navigationPending := navigationPending + 1;
      }
      loading := false;
    }

    /** The browser's own gate on the form: the submit button is
        `disabled={loading}`, the title and content fields are `required`, and
        the media field is `type="url"`, so a non-empty URL the browser does
        not accept as an absolute URL also stops the submit. `urlAccepted` is
        the browser's verdict on the media field's text. */
    predicate BrowserBlocksSubmit(urlAccepted: bool)
      reads this
      ensures !BrowserBlocksSubmit(urlAccepted) ==>
                !loading && title != "" && body != "" && (ShownUrl(media) == "" || urlAccepted)
      ensures loading || title == "" || body == "" ==> BrowserBlocksSubmit(urlAccepted)
      ensures ShownUrl(media) != "" && !urlAccepted ==> BrowserBlocksSubmit(urlAccepted)
    {
      loading || title == "" || body == "" || (ShownUrl(media) != "" && !urlAccepted)
    }

    /** Submitting the form: a blocked submit never reaches `handleSubmit`,
        sends nothing and changes nothing; any other has the handler's whole
        effect. */
    method PressSubmit(urlAccepted: bool, token: Option<string>, reply: FetchReply<()>) returns (sent: Option<PostPayload>)
      modifies this
      ensures old(BrowserBlocksSubmit(urlAccepted)) ==> sent.None? && unchanged(this)
      ensures !old(BrowserBlocksSubmit(urlAccepted)) ==>
                (sent.Some? <==> SubmitBlocker(token, status).None?)
                && (sent.Some? ==> sent.value == PostPayload(title, body, category, status, media))
                && error == SubmitError(token, status, reply)
                && (success.Some? <==> error.None?)
                && (success.Some? ==> success.value == "Post created successfully!")
                && !loading
                && navigationPending == old(navigationPending) + (if error.None? then 1 else 0)
                && navigatedTo == old(navigatedTo)
                && title == old(title) && body == old(body) && category == old(category)
                && status == old(status) && media == old(media)
    {
      if BrowserBlocksSubmit(urlAccepted) {
        sent := None;
      } else {
        sent := HandleSubmit(token, reply);
      }
    }

    /** One 1.5-second timer set after a successful submit goes off. */
    method NavigationTimerFires()
      requires navigationPending > 0
      modifies this`navigationPending, this`navigatedTo
      ensures navigationPending == old(navigationPending) - 1
      ensures navigatedTo == old(navigatedTo) + ["/dashboard/blog"]
    {
      navigationPending := navigationPending - 1;
      navigatedTo := navigatedTo + ["/dashboard/blog"];
    }
  }
}
