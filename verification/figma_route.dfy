/**
 * `POST /api/figma`: finds the file key and node id in a Figma link, asks the Figma images
 * API for a PNG of the node and returns it as a data URI. The two fetches, the body read and
 * the URL parser are inputs; the result records which requests the route made.
 */
module FigmaRoute {
  import opened Wrappers
  import opened Text
  import opened Domain
  import opened ApiCommon

  /** The JSON body: unreadable (with the exception's message) or its two fields. */
  datatype FigmaRequest = Unreadable(message: string) | FigmaRequest(figmaUrl: Option<string>, accessToken: Option<string>)

  /** `new URL(figmaUrl)`: it throws, or yields the decoded `node-id` query value when there is one. */
  datatype UrlParse = InvalidUrl(message: string) | ParsedUrl(nodeIdParam: Option<string>)

  /** The images API call: it throws, answers non-OK (status and optional `err`), or maps node ids to image URLs. */
  datatype ImagesResponse = ImagesThrew(message: string) | ImagesNotOk(status: int, err: Option<string>) | ImagesOk(images: map<string, string>)

  /** Downloading the image: it throws, or yields the base64 payload and the `content-type` header. */
  datatype ImageDownload = DownloadThrew(message: string) | Downloaded(base64: string, contentType: Option<string>)

  /** The images API request the route sends. */
  datatype ApiRequest = ApiRequest(url: string, token: string)

  /** The reply, plus the requests made: the images API call and the image download. */
  datatype FigmaOutcome = FigmaOutcome(reply: Reply<string>, apiRequest: Option<ApiRequest>, download: Option<string>)

  const MissingInput: string := "Figma URL and Access Token are required"
  const InvalidFigmaUrl: string := "Invalid Figma URL"
  const FetchFailed: string := "Failed to fetch from Figma"
  const NoImage: string := "Could not find image for the specified node"
  const InternalError: string := "Internal server error"
  const DefaultNode: string := "0:0"
  const DefaultMime: string := "image/png"
  const ImagesBase: string := "https://api.figma.com/v1/images/"

  // The file key: `/(?:file|design)\/([a-zA-Z0-9]+)/`, leftmost match, greedy capture.

  /** Where the capture would begin when `file/` or `design/` starts at `i`. */
  function MarkerEnd(s: string, i: nat): (m: Option<nat>)
    ensures m.Some? ==> m.value <= |s|
  {
    if OccursAt(s, "file/", i) then Some(i + 5)
    else if OccursAt(s, "design/", i) then Some(i + 7)
    else None
  }

  /** The pattern matches at `i`: a marker followed by at least one alphanumeric. */
  predicate KeyAt(s: string, i: nat) {
    var m := MarkerEnd(s, i);
    m.Some? && m.value < |s| && IsAsciiAlnum(s[m.value])
  }

  /** The capture of a match at `i`: the maximal, non-empty alphanumeric run after the marker. */
  function KeyText(s: string, i: nat): (key: string)
    requires KeyAt(s, i)
    ensures |key| > 0 && forall k | 0 <= k < |key| :: IsAsciiAlnum(key[k])
    ensures var m := MarkerEnd(s, i).value;
            && m + |key| <= |s| && s[m..m + |key|] == key
            && (m + |key| == |s| || !IsAsciiAlnum(s[m + |key|]))
  {
    var m := MarkerEnd(s, i).value;
    var key := s[m..RunEnd(s, m, IsAsciiAlnum)];
    assert forall k | 0 <= k < |key| :: key[k] == s[m + k];
    key
  }

  /** `i` is the leftmost position where the pattern matches. */
  predicate FirstKeyAt(s: string, i: nat) {
    KeyAt(s, i) && forall l | 0 <= l < i :: !KeyAt(s, l)
  }

  /** The first match at or after `i`. */
  function KeyFrom(s: string, i: nat): (r: Option<string>)
    requires forall l | 0 <= l < i :: !KeyAt(s, l)
    ensures r.Some? <==> exists j: nat :: KeyAt(s, j)
    ensures r.Some? ==> exists j: nat :: FirstKeyAt(s, j) && r.value == KeyText(s, j)
    decreases |s| - i
  {
    if i >= |s| then
      assert forall j: nat :: !KeyAt(s, j) by {
        forall j: nat
          ensures !KeyAt(s, j)
        {
          if j >= i {
            assert MarkerEnd(s, j).None?;
          }
        }
      }
      None
    else if KeyAt(s, i) then
      assert FirstKeyAt(s, i);
      Some(KeyText(s, i))
    else KeyFrom(s, i + 1)
  }

  /**
   * `match ? match[1] : null`: present exactly when the pattern matches somewhere, and then
   * the capture of the leftmost match.
   */
  function FileKey(url: string): (r: Option<string>)
    ensures r.Some? <==> exists j: nat :: KeyAt(url, j)
    ensures r.Some? ==> exists j: nat :: FirstKeyAt(url, j) && r.value == KeyText(url, j)
  {
    KeyFrom(url, 0)
  }

  /** `searchParams.get('node-id')?.replace('-', ':') || ''`: only the first `-` becomes `:`. */
  function NodeId(param: Option<string>): (r: string)
    ensures param.None? ==> r == ""
    ensures param.Some? ==> r == ReplaceFirst(param.value, "-", ":")
  {
    match param
    case None => ""
    case Some(v) => ReplaceFirst(v, "-", ":")
  }

  /** `nodeId || '0:0'`: the node used both in the request and in the lookup. */
  function RequestedNode(nodeId: string): (r: string)
    ensures r != ""
    ensures nodeId != "" ==> r == nodeId
    ensures nodeId == "" ==> r == DefaultNode
  {
    if nodeId != "" then nodeId else DefaultNode
  }

  /** The images API URL for a file key and node. */
  function ImagesApiUrl(fileKey: string, node: string): string {
    ImagesBase + fileKey + "?ids=" + node + "&format=png&scale=2"
  }

  /** An alphanumeric file key is recovered from the URL as the text between the base and the first `?`. */
  lemma ImagesApiUrlKey(fileKey: string, node: string)
    requires forall k | 0 <= k < |fileKey| :: IsAsciiAlnum(fileKey[k])
    ensures var url := ImagesApiUrl(fileKey, node);
            |ImagesBase| <= |url| && url[..|ImagesBase|] == ImagesBase
            && BeforeFirst(url[|ImagesBase|..], '?') == fileKey
  {
    var url := ImagesApiUrl(fileKey, node);
    var rest := url[|ImagesBase|..];
    assert rest == fileKey + ("?ids=" + node + "&format=png&scale=2");
    assert '?' !in fileKey by {
      forall k | 0 <= k < |fileKey|
        ensures fileKey[k] != '?'
      {
        assert IsAsciiAlnum(fileKey[k]);
      }
    }
    assert rest[|fileKey|] == '?';
  }

  /** The data URI the route returns. */
  function DataUri(mime: string, base64: string): string {
    "data:" + mime + ";base64," + base64
  }

  /** The route. */
  function PostFigma(request: FigmaRequest, url: UrlParse, images: ImagesResponse, download: ImageDownload): (r: FigmaOutcome)
    ensures request.Unreadable? ==> r == FigmaOutcome(Fail(500, ErrorText(request.message, InternalError)), None, None)
    ensures request.FigmaRequest? && !(Truthy(request.figmaUrl) && Truthy(request.accessToken)) ==>
              r == FigmaOutcome(Fail(400, MissingInput), None, None)
    ensures request.FigmaRequest? && Truthy(request.figmaUrl) && Truthy(request.accessToken) ==>
              match url
              case InvalidUrl(m) => r == FigmaOutcome(Fail(500, ErrorText(m, InternalError)), None, None)
              case ParsedUrl(param) =>
                match FileKey(request.figmaUrl.value)
                case None => r == FigmaOutcome(Fail(400, InvalidFigmaUrl), None, None)
                case Some(key) =>
                  var node := RequestedNode(NodeId(param));
                  && r.apiRequest == Some(ApiRequest(ImagesApiUrl(key, node), request.accessToken.value))
                  && (images.ImagesThrew? ==> r.reply == Fail(500, ErrorText(images.message, InternalError)))
                  && (images.ImagesNotOk? ==>
                        r.reply == Fail(images.status, if Truthy(images.err) then images.err.value else FetchFailed))
                  && (images.ImagesOk? && (node !in images.images || images.images[node] == "") ==>
                        r.reply == Fail(404, NoImage))
                  && (r.download.Some? <==> images.ImagesOk? && node in images.images && images.images[node] != "")
                  && (r.download.Some? ==> r.download.value == images.images[node])
                  && (r.download.Some? && download.DownloadThrew? ==> r.reply == Fail(500, ErrorText(download.message, InternalError)))
                  && (r.download.Some? && download.Downloaded? ==>
                        r.reply == Ok(DataUri(if Truthy(download.contentType) then download.contentType.value else DefaultMime, download.base64)))
  {
    match request
    case Unreadable(m) => FigmaOutcome(Fail(500, ErrorText(m, InternalError)), None, None)
    case FigmaRequest(figmaUrl, accessToken) =>
      if !(Truthy(figmaUrl) && Truthy(accessToken)) then FigmaOutcome(Fail(400, MissingInput), None, None)
      else
        var key := FileKey(figmaUrl.value);
        match url
        case InvalidUrl(m) => FigmaOutcome(Fail(500, ErrorText(m, InternalError)), None, None)
        case ParsedUrl(param) =>
          if key.None? then FigmaOutcome(Fail(400, InvalidFigmaUrl), None, None)
          else
            var node := RequestedNode(NodeId(param));
            var call := Some(ApiRequest(ImagesApiUrl(key.value, node), accessToken.value));
            match images
            case ImagesThrew(m) => FigmaOutcome(Fail(500, ErrorText(m, InternalError)), call, None)
            case ImagesNotOk(status, err) =>
              FigmaOutcome(Fail(status, if Truthy(err) then err.value else FetchFailed), call, None)
            case ImagesOk(found) =>
              if node !in found || found[node] == "" then FigmaOutcome(Fail(404, NoImage), call, None)
              else
                match download
                case DownloadThrew(m) => FigmaOutcome(Fail(500, ErrorText(m, InternalError)), call, Some(found[node]))
                case Downloaded(base64, contentType) =>
                  var mime := if Truthy(contentType) then contentType.value else DefaultMime;
                  FigmaOutcome(Ok(DataUri(mime, base64)), call, Some(found[node]))
  }
}
