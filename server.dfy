/** The static file server: how a request URL becomes a file path, which
    status and content type a response gets, and how the listening port is
    retried. Node's `path.join`, `path.extname` and `fs.readFile` are
    library code and enter as function parameters. */
module Server {
  import opened Numeric

  /** The extensions the server knows and their content types. */
  const Mimes: map<string, string> := map[
    ".html" := "text/html; charset=utf-8",
    ".css" := "text/css",
    ".js" := "application/javascript",
    ".json" := "application/json",
    ".ico" := "image/x-icon",
    ".png" := "image/png",
    ".jpg" := "image/jpeg",
    ".svg" := "image/svg+xml",
    ".wav" := "audio/wav",
    ".mp3" := "audio/mpeg"
  ]

  const DefaultType: string := "application/octet-stream"
  const TextType: string := "text/plain; charset=utf-8"
  const DefaultPort: nat := 3000

  /** Everything before the first `?` (the first part of `split('?')`). */
  function StripQuery(u: string): (r: string)
    ensures r <= u && '?' !in r
    ensures r == u || u[|r|] == '?'
  {
    if |u| == 0 || u[0] == '?' then "" else [u[0]] + StripQuery(u[1..])
  }

  /** The path a request URL names: exactly `/` is the index page, and the
      query is dropped afterwards. */
  function RequestPath(url: string): string
  {
    StripQuery(if url == "/" then "/index.html" else url)
  }

  /** The path never carries a query; a URL without one other than `/` is
      kept as it is, `/` is the index page, and stripping twice is
      stripping once. */
  lemma RequestPathProperties(url: string)
    ensures '?' !in RequestPath(url)
    ensures url != "/" && '?' !in url ==> RequestPath(url) == url
    ensures RequestPath("/") == "/index.html"
    ensures StripQuery(StripQuery(url)) == StripQuery(url)
  {
    assert '?' !in "/index.html";
    StripNoQuery("/index.html");
    StripNoQuery(url);
    StripNoQuery(StripQuery(url));
  }

  lemma {:induction false} StripNoQuery(u: string)
    ensures '?' !in u ==> StripQuery(u) == u
  {
    if |u| > 0 && '?' !in u {
      assert u[0] != '?';
      assert '?' !in u[1..];
      StripNoQuery(u[1..]);
      assert u == [u[0]] + u[1..];
    }
  }

  /** The rewrite to the index page looks at the URL before its query is
      dropped, so `/` with a query names the directory `/`, not the index
      page. */
  lemma RootWithQueryNotRewritten(q: string)
    ensures RequestPath("/?" + q) == "/"
  {
    var u := "/?" + q;
    assert u != "/" by { assert |u| >= 2; }
    assert u[0] == '/' && u[1] == '?';
    assert u[1..][0] == '?';
  }

  /** The content type of an extension: its entry in the table, otherwise
      the generic binary type. */
  function ContentType(ext: string): string
  {
    if ext in Mimes then Mimes[ext] else DefaultType
  }

  /** Only an extension of the table gets a type other than the default,
      and the table's types are all distinct from it; HTML is sent as
      UTF-8 text, an unknown or empty extension as binary. */
  lemma ContentTypeChoice(ext: string)
    ensures ContentType(ext) == DefaultType <==> ext !in Mimes
    ensures ContentType(".html") == "text/html; charset=utf-8"
    ensures ContentType("") == DefaultType && ContentType(".txt") == DefaultType
  {
    if ext in Mimes {
      assert Mimes[ext] != DefaultType;
    }
  }

  /** What reading a file gives: its bytes, or an error code. */
  datatype ReadResult = Contents(data: seq<bv8>) | ReadError(code: string)

  datatype Body = Bytes(data: seq<bv8>) | Text(message: string)

  datatype Response = Response(status: nat, contentType: string, body: Body)

  /** The response for the outcome of reading a file whose extension is
      `ext`. */
  function Respond(read: ReadResult, ext: string): Response
  {
    match read
    case ReadError(code) =>
      if code == "ENOENT" then Response(404, TextType, Text("Not Found"))
      else Response(500, TextType, Text("Server Error"))
    case Contents(data) => Response(200, ContentType(ext), Bytes(data))
  }

  /** A read that succeeds is a 200 with the file's bytes and the type of
      its extension; a missing file is a 404 and every other read error a
      500, both as plain text. */
  lemma RespondStatus(read: ReadResult, ext: string)
    ensures var r := Respond(read, ext);
      (r.status == 200 <==> read.Contents?)
      && (r.status == 404 <==> read.ReadError? && read.code == "ENOENT")
      && (r.status == 500 <==> read.ReadError? && read.code != "ENOENT")
      && (read.Contents? ==> r.body == Bytes(read.data) && r.contentType == ContentType(ext))
      && (read.ReadError? ==> r.contentType == TextType)
  {
  }

  /** One request: the path is joined to the server's root, the joined
      path is read, and its extension picks the type. */
  function Handle(url: string, join: string -> string, readFile: string -> ReadResult, extname: string -> string): Response
  {
    var filePath := join(RequestPath(url));
    Respond(readFile(filePath), extname(filePath))
  }

  /** Requests for `/` and for `/index.html` read the same file and get
      the same response. */
  lemma RootServesIndex(join: string -> string, readFile: string -> ReadResult, extname: string -> string)
    ensures Handle("/", join, readFile, extname) == Handle("/index.html", join, readFile, extname)
  {
    RequestPathProperties("/");
    RequestPathProperties("/index.html");
    assert '?' !in "/index.html";
  }

  // ---- Listening with port retry.

  /** The listener as a value: the port it is on, the ports it has tried
      in order, and the error that ended it, if any. */
  datatype ListenState = ListenState(port: int, tried: seq<int>, failed: Option<string>)

  /** `PORT` from the environment when set, otherwise 3000. */
  function InitialPort(env: Option<nat>): nat
  {
    if env.Some? then env.value else DefaultPort
  }

  /** The server's error handler: an address in use moves to the next port
      and listens again; any other error is thrown and ends the process. */
  function OnErrorStep(s: ListenState, code: string): ListenState
  {
    if code == "EADDRINUSE" then s.(port := s.port + 1, tried := s.tried + [s.port + 1])
    else s.(failed := Some(code))
  }

  /** A run of server errors, delivered until one of them ends the
      process. */
  function Replay(s: ListenState, codes: seq<string>): ListenState
    decreases |codes|
  {
    if |codes| == 0 || s.failed.Some? then s else Replay(OnErrorStep(s, codes[0]), codes[1..])
  }

  /** After `k` addresses in use the listener is on port `p + k` and has
      tried `p, p + 1, ..., p + k` in that order. */
  lemma {:induction false} RetriesCountUp(s: ListenState, codes: seq<string>)
    requires s.failed.None? && |s.tried| > 0 && s.tried[|s.tried| - 1] == s.port
    requires forall i :: 0 <= i < |codes| ==> codes[i] == "EADDRINUSE"
    ensures var t := Replay(s, codes);
      t.failed.None? && t.port == s.port + |codes|
      && t.tried == s.tried + seq(|codes|, i requires 0 <= i < |codes| => s.port + 1 + i)
    decreases |codes|
  {
    if |codes| > 0 {
      var s1 := OnErrorStep(s, codes[0]);
      RetriesCountUp(s1, codes[1..]);
      var n := |codes|;
      assert s1.tried + seq(n - 1, i requires 0 <= i < n - 1 => s1.port + 1 + i)
          == s.tried + seq(n, i requires 0 <= i < n => s.port + 1 + i);
    }
  }

  /** Any error other than an address in use ends the process: later
      errors change nothing, and the port stays where it was. */
  lemma {:induction false} OtherErrorStops(s: ListenState, code: string, rest: seq<string>)
    requires s.failed.None? && code != "EADDRINUSE"
    ensures Replay(s, [code] + rest) == s.(failed := Some(code))
  {
    assert ([code] + rest)[0] == code;
  }

  /** The server's port counter and the ports it has listened on. */
  class Listener {
    var currentPort: int
    var tried: seq<int>
    var failed: Option<string>

    function State(): ListenState
      reads this
    {
      ListenState(currentPort, tried, failed)
    }

    /** Starts on `PORT` or 3000 and listens once. */
    constructor(env: Option<nat>)
      ensures State() == ListenState(InitialPort(env), [InitialPort(env)], None)
    {
      currentPort := if env.Some? then env.value else DefaultPort;
      tried := [];
      failed := None;
      new;
      TryListen();
    }

    /** Listens on the current port. */
    method TryListen()
      modifies this
      ensures State() == old(State()).(tried := old(tried) + [currentPort])
    {
      tried := tried + [currentPort];
    }

    /** Handles a server error with code `code`; `thrown` is the error
      thrown on when it is not an address in use. */
    method OnError(code: string) returns (thrown: Option<string>)
      requires failed.None?
      modifies this
      ensures State() == OnErrorStep(old(State()), code)
      ensures thrown == (if code == "EADDRINUSE" then None else Some(code))
    {
      if code == "EADDRINUSE" {
        currentPort := currentPort + 1;
        TryListen();
        thrown := None;
      } else {
        failed := Some(code);
        thrown := Some(code);
      }
    }
  }
}
