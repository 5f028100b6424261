/**
  The download endpoint `GET /`: it looks up the `"current"` record, asks
  Telegram's `getFile` for the file's temporary path, fetches the content
  from that path and streams it back as an attachment.

  The two upstream calls are inputs: `getFile` gives Telegram's answer for a
  `file_id`, `fetch` the answer for a file path. The result records which
  calls were made, in order, next to the response.
 */
module Gateway {
  import opened Wrappers
  import opened Store

  newtype byte = x: int | 0 <= x < 256

  /** The answer to `requests.get(.../getFile?file_id=...)`. */
  datatype GetFileReply =
    | GetFileRaised                                          // the request raised (timeout, connection error)
    | GetFileAnswered(status: int, filePath: Option<string>) // filePath: `json()["result"]["file_path"]`, if readable

  /** The answer to the streaming `requests.get(.../file/bot<token>/<path>)`. */
  datatype ContentReply =
    | ContentRaised
    | ContentAnswered(status: int, contentType: Option<string>, body: seq<byte>)

  datatype Call = GetFileCall(fileId: string) | ContentCall(filePath: string)

  datatype Body = Empty | ErrorPage | Chunked(chunks: seq<seq<byte>>)

  datatype Response = Response(status: int, body: Body, contentType: string, disposition: Option<string>)

  datatype Download = Download(response: Response, calls: seq<Call>)

  const ChunkSize := 8192
  const DefaultContentType := "application/octet-stream"

  /** `Response("", content_type="text/html")`: the blank page of an unconfigured relay. */
  const BlankPage := Response(200, Empty, "text/html", None)
  /** `abort(502)` */
  const BadGateway := Response(502, ErrorPage, "text/html; charset=utf-8", None)
  /** An exception escaping the view: Flask answers 500. */
  const ServerError := Response(500, ErrorPage, "text/html; charset=utf-8", None)

  /** `requests.Response.ok`: neither a client error (4xx) nor a server error (5xx). */
  predicate Ok(status: int)
    ensures Ok(status) <==> !(400 <= status < 500) && !(500 <= status < 600)
  {
    !(400 <= status < 600)
  }

  /** `if not meta`: a record is usable when it exists and has at least one field. */
  predicate HasMeta(m: Option<Meta>)
    ensures HasMeta(m) <==> m.Some? && exists k :: k in m.value
  {
    m.Some? && m.value != map[]
  }

  /** `f"{meta.get('file_id')}"`: a missing id is formatted as `None`. */
  function FileIdParam(m: Meta): string {
    Field(m, FileIdField).GetOr("None")
  }

  function Disposition(fileName: string): string {
    "attachment; filename=\"" + fileName + "\""
  }

  /** `iter_content(chunk_size)`: the body cut into non-empty pieces of at most `size` bytes. */
  function Chunks(body: seq<byte>, size: nat): (r: seq<seq<byte>>)
    requires size > 0
    ensures forall i | 0 <= i < |r| :: 0 < |r[i]| <= size
    decreases |body|
  {
    if body == [] then []
    else if |body| <= size then [body]
    else [body[..size]] + Chunks(body[size..], size)
  }

  function Flatten(chunks: seq<seq<byte>>): seq<byte> {
    if chunks == [] then [] else chunks[0] + Flatten(chunks[1..])
  }

  /** The client receives exactly the upstream bytes, in order. */
  lemma {:induction false} ChunksReassemble(body: seq<byte>, size: nat)
    requires size > 0
    ensures Flatten(Chunks(body, size)) == body
    decreases |body|
  {
    if |body| > size {
      var rest := Chunks(body[size..], size);
      ChunksReassemble(body[size..], size);
      assert ([body[..size]] + rest)[1..] == rest;
      assert body == body[..size] + body[size..];
    } else if body != [] {
      assert [body][1..] == [];
    }
  }

  /** `root_download()` */
  function RootDownload(files: JsonFile<FilesDoc>, getFile: string -> GetFileReply, fetch: string -> ContentReply): (d: Download)
    ensures d.calls == [] <==> !HasMeta(GetCurrentFileMeta(files))
    ensures d.calls == [] ==> d.response == BlankPage
    ensures d.response.status == 200 || d.response.status == 500 || d.response.status == 502
    ensures d.response.status != 200 ==> d.response.body == ErrorPage && d.response.disposition == None
    ensures |d.calls| <= 2
    ensures d.calls != [] ==> d.calls[0] == GetFileCall(FileIdParam(GetCurrentFileMeta(files).value))
  {
    var meta := GetCurrentFileMeta(files);
    if !HasMeta(meta) then Download(BlankPage, [])
    else
      var fileId := FileIdParam(meta.value);
      var fileName := FileNameOr(Field(meta.value, FileNameField));
      var asked := [GetFileCall(fileId)];
      match getFile(fileId)
      case GetFileRaised => Download(ServerError, asked)
      case GetFileAnswered(status, path) =>
        if !Ok(status) || path.None? then Download(BadGateway, asked)
        else
          var fetched := asked + [ContentCall(path.value)];
          match fetch(path.value)
          case ContentRaised => Download(ServerError, fetched)
          case ContentAnswered(contentStatus, contentType, body) =>
            if !Ok(contentStatus) then Download(BadGateway, fetched)
            else
              var response := Response(200, Chunked(Chunks(body, ChunkSize)),
                                       contentType.GetOr(DefaultContentType), Some(Disposition(fileName)));
              Download(response, fetched)
  }

  /**
    With a record present, the answer is 502 exactly when `getFile` answers
    with an error status or without `result.file_path`, or the content
    request answers with an error status.
   */
  lemma BadGatewayIff(files: JsonFile<FilesDoc>, getFile: string -> GetFileReply, fetch: string -> ContentReply)
    requires HasMeta(GetCurrentFileMeta(files))
    ensures var id := FileIdParam(GetCurrentFileMeta(files).value);
      var g := getFile(id);
      RootDownload(files, getFile, fetch).response == BadGateway <==>
        || (g.GetFileAnswered? && (!Ok(g.status) || g.filePath.None?))
        || (g.GetFileAnswered? && Ok(g.status) && g.filePath.Some? &&
            fetch(g.filePath.value).ContentAnswered? && !Ok(fetch(g.filePath.value).status))
  {
  }

  /**
    With a record present, the answer is 500 exactly when one of the two
    requests raises, and 200 exactly when both answer with an OK status
    and `getFile` gives a path.
   */
  lemma ServerErrorIff(files: JsonFile<FilesDoc>, getFile: string -> GetFileReply, fetch: string -> ContentReply)
    requires HasMeta(GetCurrentFileMeta(files))
    ensures var g := getFile(FileIdParam(GetCurrentFileMeta(files).value));
      RootDownload(files, getFile, fetch).response == ServerError <==>
        || g.GetFileRaised?
        || (Ok(g.status) && g.filePath.Some? && fetch(g.filePath.value).ContentRaised?)
    ensures var g := getFile(FileIdParam(GetCurrentFileMeta(files).value));
      RootDownload(files, getFile, fetch).response.status == 200 <==>
        && g.GetFileAnswered? && Ok(g.status) && g.filePath.Some?
        && fetch(g.filePath.value).ContentAnswered? && Ok(fetch(g.filePath.value).status)
  {
  }

  /**
    With a record present, the content request is made exactly when
    `getFile` answers with an OK status and a path, and then it asks for
    that path; otherwise the view ends after the first request.
   */
  lemma CallTrace(files: JsonFile<FilesDoc>, getFile: string -> GetFileReply, fetch: string -> ContentReply)
    requires HasMeta(GetCurrentFileMeta(files))
    ensures var g := getFile(FileIdParam(GetCurrentFileMeta(files).value));
      var d := RootDownload(files, getFile, fetch);
      && 1 <= |d.calls|
      && (|d.calls| == 2 <==> g.GetFileAnswered? && Ok(g.status) && g.filePath.Some?)
      && (|d.calls| == 2 ==> d.calls[1] == ContentCall(g.filePath.value))
  {
  }

  /**
    When both upstream calls succeed: two calls, with the stored `file_id`
    and then the returned path; the body is the upstream content in chunks
    of at most 8192 bytes; the name falls back to `file`; the content type
    falls back to `application/octet-stream`.
   */
  lemma SuccessfulDownload(files: JsonFile<FilesDoc>, getFile: string -> GetFileReply, fetch: string -> ContentReply)
    requires HasMeta(GetCurrentFileMeta(files))
    requires var g := getFile(FileIdParam(GetCurrentFileMeta(files).value));
      && g.GetFileAnswered? && Ok(g.status) && g.filePath.Some?
      && fetch(g.filePath.value).ContentAnswered? && Ok(fetch(g.filePath.value).status)
    ensures var meta := GetCurrentFileMeta(files).value;
      var path := getFile(FileIdParam(meta)).filePath.value;
      var c := fetch(path);
      var d := RootDownload(files, getFile, fetch);
      && d.calls == [GetFileCall(FileIdParam(meta)), ContentCall(path)]
      && d.response.status == 200
      && d.response.body.Chunked?
      && Flatten(d.response.body.chunks) == c.body
      && d.response.disposition == Some(Disposition(FileNameOr(Field(meta, FileNameField))))
      && d.response.contentType == c.contentType.GetOr(DefaultContentType)
  {
    var meta := GetCurrentFileMeta(files).value;
    var path := getFile(FileIdParam(meta)).filePath.value;
    ChunksReassemble(fetch(path).body, ChunkSize);
  }

  /** A missing, corrupt or empty store gives the blank page and never reaches Telegram. */
  lemma NoRecordNoCall(getFile: string -> GetFileReply, fetch: string -> ContentReply)
    ensures RootDownload(Unreadable, getFile, fetch) == Download(BlankPage, [])
    ensures RootDownload(Parsed(map[]), getFile, fetch) == Download(BlankPage, [])
    ensures RootDownload(Parsed(map[CurrentKey := map[]]), getFile, fetch) == Download(BlankPage, [])
  {
  }
}
