/** `parse_multipart` of `scripts/mock_ats.py`, and its round trip with the multipart/form-data
    encoding (RFC 7578, section 4.1; RFC 2046, section 5.1.1). */
module Multipart {
  import opened Wrappers
  import opened Text

  /** What the parser takes from the library: lossy UTF-8 decoding, and the parameters it reads out
      of a header value. */
  datatype Lib = Lib(
    decode: string -> string,
    boundaryOf: string -> Option<string>,
    nameOf: string -> Option<string>,
    filenameOf: string -> Option<string>)

  /** The headers the parser looks up, and all others by their lower-case key. */
  datatype HeaderName = ContentDisposition | ContentType | Other(key: string)

  datatype Upload = Upload(filename: string, contentType: string, data: string)

  datatype HttpError = BoundaryMissing | MalformedBody | MalformedPart

  /** A part as it is cut out of the body: its header block and its content. */
  datatype RawPart = RawPart(head: string, content: string)

  datatype Form = Form(fields: map<string, seq<string>>, files: map<string, seq<Upload>>)

  function Delimiter(boundary: string): string { "\r\n--" + boundary }

  // ---- Specification of the parser -------------------------------------------------------------

  /** The chunks between delimiters, up to the closing one. */
  function CutChunks(chunks: seq<string>): Result<seq<RawPart>, HttpError> {
    if chunks == [] || "--" <= chunks[0] then Success([])
    else if !(CRLF <= chunks[0]) then Failure(MalformedBody)
    else
      var (head, found, content) := Partition(chunks[0][2..], "\r\n\r\n");
      if !found then Failure(MalformedPart)
      else match CutChunks(chunks[1..])
           case Failure(e) => Failure(e)
           case Success(rest) => Success([RawPart(head, content)] + rest)
  }

  function Cut(body: string, boundary: string): Result<seq<RawPart>, HttpError> {
    CutChunks(Split(CRLF + body, Delimiter(boundary))[1..])
  }

  function Named(key: string): HeaderName {
    if key == "content-disposition" then ContentDisposition
    else if key == "content-type" then ContentType
    else Other(key)
  }

  function HeaderLine(line: string): (HeaderName, string) {
    var (key, _, value) := Partition(line, ":");
    (Named(Lower(Strip(key))), Strip(value))
  }

  /** The header dictionary: a later line overrides an earlier one of the same name. */
  function Assembled(lines: seq<(HeaderName, string)>): map<HeaderName, string> {
    if lines == [] then map[]
    else Assembled(lines[..|lines| - 1])[lines[|lines| - 1].0 := lines[|lines| - 1].1]
  }

  function HeaderLines(lines: seq<string>): (r: seq<(HeaderName, string)>)
    ensures |r| == |lines|
  {
    seq(|lines|, i requires 0 <= i < |lines| => HeaderLine(lines[i]))
  }

  function Headers(lib: Lib, head: string): map<HeaderName, string> {
    Assembled(HeaderLines(Split(lib.decode(head), CRLF)))
  }

  function Disposition(headers: map<HeaderName, string>): string {
    if ContentDisposition in headers then headers[ContentDisposition] else ""
  }

  function TypeOf(headers: map<HeaderName, string>): string {
    if ContentType in headers then headers[ContentType] else "application/octet-stream"
  }

  function Values<T>(m: map<string, seq<T>>, key: string): seq<T> {
    if key in m then m[key] else []
  }

  /** What one part adds to the form. */
  datatype Piece = Unnamed | TextPiece(name: string, text: string) | FilePiece(name: string, upload: Upload)

  function PieceOf(lib: Lib, raw: RawPart): Piece {
    var headers := Headers(lib, raw.head);
    match (lib.nameOf(Disposition(headers)), lib.filenameOf(Disposition(headers)))
    case (None, _) => Unnamed
    case (Some(name), None) => TextPiece(name, lib.decode(raw.content))
    case (Some(name), Some(filename)) => FilePiece(name, Upload(Basename(filename), TypeOf(headers), raw.content))
  }

  /** What follows the last slash or backslash. */
  function Basename(path: string): string {
    if path == "" then ""
    else
      var c := path[|path| - 1];
      if c == '/' || c == '\\' then "" else Basename(path[..|path| - 1]) + [c]
  }

  function Added(form: Form, piece: Piece): Form {
    match piece
    case Unnamed => form
    case TextPiece(name, text) => form.(fields := form.fields[name := Values(form.fields, name) + [text]])
    case FilePiece(name, upload) => form.(files := form.files[name := Values(form.files, name) + [upload]])
  }

  function Gathered(pieces: seq<Piece>): Form {
    if pieces == [] then Form(map[], map[]) else Added(Gathered(pieces[..|pieces| - 1]), pieces[|pieces| - 1])
  }

  function PiecesOf(lib: Lib, raws: seq<RawPart>): (r: seq<Piece>)
    ensures |r| == |raws|
  {
    seq(|raws|, i requires 0 <= i < |raws| => PieceOf(lib, raws[i]))
  }

  function Parse(lib: Lib, body: string, contentType: string): Result<Form, HttpError> {
    match lib.boundaryOf(contentType)
    case None => Failure(BoundaryMissing)
    case Some(boundary) =>
      if boundary == "" then Failure(BoundaryMissing)
      else match Cut(body, boundary)
           case Failure(e) => Failure(e)
           case Success(raws) => Success(Gathered(PiecesOf(lib, raws)))
  }

  // ---- The parser ---------------------------------------------------------------------------------

  method ParseHeaders(lib: Lib, head: string) returns (headers: map<HeaderName, string>)
    ensures headers == Headers(lib, head)
  {
    headers := map[];
    var lines := Split(lib.decode(head), CRLF);
    ghost var all := HeaderLines(lines);
    for k := 0 to |lines|
      invariant headers == Assembled(all[..k])
    {
      var (key, value) := HeaderLine(lines[k]);
      headers := headers[key := value];
      assert all[..k + 1][..k] == all[..k];
    }
    assert all[..|lines|] == all;
  }

  method AddPart(lib: Lib, form: Form, head: string, content: string) returns (r: Form)
    ensures r == Added(form, PieceOf(lib, RawPart(head, content)))
  {
    r := form;
    var headers := ParseHeaders(lib, head);
    var name := lib.nameOf(Disposition(headers));
    if name.Some? {
      var filename := lib.filenameOf(Disposition(headers));
      if filename.None? {
        r := r.(fields := r.fields[name.value := Values(r.fields, name.value) + [lib.decode(content)]]);
      } else {
        var upload := Upload(Basename(filename.value), TypeOf(headers), content);
        r := r.(files := r.files[name.value := Values(r.files, name.value) + [upload]]);
      }
    }
  }

  /** What the loop has cut so far, followed by what the remaining chunks hold. */
  function Then(raws: seq<RawPart>, rest: Result<seq<RawPart>, HttpError>): Result<seq<RawPart>, HttpError> {
    match rest
    case Failure(e) => Failure(e)
    case Success(more) => Success(raws + more)
  }

  lemma ThenMore(raws: seq<RawPart>, raw: RawPart, rest: Result<seq<RawPart>, HttpError>)
    ensures Then(raws, Then([raw], rest)) == Then(raws + [raw], rest)
    ensures Then([], rest) == rest
  {
    if rest.Success? {
      assert raws + ([raw] + rest.value) == (raws + [raw]) + rest.value;
      assert [] + rest.value == rest.value;
    }
  }

  lemma CutOne(chunks: seq<string>, head: string, content: string)
    requires chunks != [] && CRLF <= chunks[0]
    requires Partition(chunks[0][2..], "\r\n\r\n") == (head, true, content)
    ensures CutChunks(chunks) == Then([RawPart(head, content)], CutChunks(chunks[1..]))
  {
    assert chunks[0][0] == '\r';
    assert !("--" <= chunks[0]);
  }

  /** One chunk more is cut, and its part gathered. */
  lemma OneChunk(lib: Lib, chunks: seq<string>, raws: seq<RawPart>, head: string, content: string)
    requires chunks != [] && CRLF <= chunks[0]
    requires Partition(chunks[0][2..], "\r\n\r\n") == (head, true, content)
    ensures Then(raws + [RawPart(head, content)], CutChunks(chunks[1..])) == Then(raws, CutChunks(chunks))
    ensures Gathered(PiecesOf(lib, raws + [RawPart(head, content)]))
            == Added(Gathered(PiecesOf(lib, raws)), PieceOf(lib, RawPart(head, content)))
  {
    var raw := RawPart(head, content);
    CutOne(chunks, head, content);
    ThenMore(raws, raw, CutChunks(chunks[1..]));
    assert PiecesOf(lib, raws + [raw])[..|raws|] == PiecesOf(lib, raws);
  }

  method ParseMultipart(lib: Lib, body: string, contentType: string) returns (r: Result<Form, HttpError>)
    ensures r == Parse(lib, body, contentType)
  {
    var boundary := lib.boundaryOf(contentType);
    if boundary.None? || boundary.value == "" { return Failure(BoundaryMissing); }
    var form := Form(map[], map[]);
    var chunks := Split(CRLF + body, Delimiter(boundary.value));
    ghost var all := CutChunks(chunks[1..]);
    ghost var raws: seq<RawPart> := [];
    ThenMore([], RawPart("", ""), all);
    var k := 1;
    while k < |chunks|
      invariant 1 <= k <= |chunks|
      invariant Then(raws, CutChunks(chunks[k..])) == all
      invariant form == Gathered(PiecesOf(lib, raws))
    {
      var chunk := chunks[k];
      assert chunks[k..][0] == chunk && chunks[k..][1..] == chunks[k + 1..];
      if "--" <= chunk { break; }
      if !(CRLF <= chunk) { return Failure(MalformedBody); }
      var (head, found, content) := Partition(chunk[2..], "\r\n\r\n");
      if !found { return Failure(MalformedPart); }
      form := AddPart(lib, form, head, content);
      OneChunk(lib, chunks[k..], raws, head, content);
      raws := raws + [RawPart(head, content)];
      k := k + 1;
    }
    assert CutChunks(chunks[k..]) == Success([]);
    assert raws + [] == raws;
    r := Success(form);
  }

  // ---- What gathering yields ------------------------------------------------------------------------

  /** The text values posted under a name, in the order of the parts. */
  function TextsUnder(pieces: seq<Piece>, name: string): seq<string> {
    if pieces == [] then []
    else
      var last := pieces[|pieces| - 1];
      TextsUnder(pieces[..|pieces| - 1], name) + if last.TextPiece? && last.name == name then [last.text] else []
  }

  /** The files posted under a name, in the order of the parts. */
  function FilesUnder(pieces: seq<Piece>, name: string): seq<Upload> {
    if pieces == [] then []
    else
      var last := pieces[|pieces| - 1];
      FilesUnder(pieces[..|pieces| - 1], name) + if last.FilePiece? && last.name == name then [last.upload] else []
  }

  /** A dictionary of lists that holds exactly this list under this name; no list is empty. */
  predicate HoldsList<T(==)>(m: map<string, seq<T>>, name: string, list: seq<T>) {
    if list == [] then name !in m else name in m && m[name] == list
  }

  /** Every name maps to exactly the values posted under it, in the order of the parts. */
  lemma {:induction false} GatheredIsComplete(pieces: seq<Piece>, name: string)
    ensures HoldsList(Gathered(pieces).fields, name, TextsUnder(pieces, name))
    ensures HoldsList(Gathered(pieces).files, name, FilesUnder(pieces, name))
  {
    if pieces != [] {
      GatheredIsComplete(pieces[..|pieces| - 1], name);
    }
  }

  // ---- What the parser reads ------------------------------------------------------------------------

  predicate NoSlash(s: string) { '/' !in s && '\\' !in s }

  /** What follows the last slash or backslash, if there is one. */
  ghost predicate IsBasename(path: string, name: string) {
    NoSlash(name) && (path == name || exists front: string :: path == front + "/" + name || path == front + "\\" + name)
  }

  /** The file name kept of an upload is what follows the last slash or backslash, and nothing else is. */
  lemma {:induction false} BasenameIs(path: string, name: string)
    ensures name == Basename(path) <==> IsBasename(path, name)
  {
    BasenameFollows(path);
    if IsBasename(path, name) {
      if path == name {
        BasenameOf("", name);
        assert "" + name == name;
      } else {
        var front: string :| path == front + "/" + name || path == front + "\\" + name;
        if path == front + "/" + name { BasenameOf(front + "/", name); } else { BasenameOf(front + "\\", name); }
      }
    }
  }

  lemma {:induction false} BasenameFollows(path: string)
    ensures IsBasename(path, Basename(path))
  {
    if path != "" {
      var n := |path| - 1;
      if path[n] == '/' {
        assert path == path[..n] + "/" + "";
      } else if path[n] == '\\' {
        assert path == path[..n] + "\\" + "";
      } else {
        BasenameFollows(path[..n]);
        var name := Basename(path[..n]);
        if path[..n] == name {
          assert path == name + [path[n]];
        } else {
          var front: string :| path[..n] == front + "/" + name || path[..n] == front + "\\" + name;
          assert path == front + "/" + (name + [path[n]]) || path == front + "\\" + (name + [path[n]]);
        }
      }
    }
  }

  lemma {:induction false} BasenameOf(front: string, name: string)
    requires NoSlash(name) && (front != "" ==> front[|front| - 1] == '/' || front[|front| - 1] == '\\')
    ensures Basename(front + name) == name
  {
    if name == "" {
      assert front + name == front;
    } else {
      var n := |name| - 1;
      BasenameOf(front, name[..n]);
      assert (front + name)[..|front + name| - 1] == front + name[..n];
    }
  }

  /** The header dictionary holds exactly the last line of each name. */
  lemma {:induction false} HeadersAreLast(lines: seq<(HeaderName, string)>, name: HeaderName, value: string)
    ensures name in Assembled(lines) && Assembled(lines)[name] == value
            <==> exists k :: 0 <= k < |lines| && lines[k] == (name, value) && forall j :: k < j < |lines| ==> lines[j].0 != name
  {
    if lines != [] {
      var n := |lines| - 1;
      HeadersAreLast(lines[..n], name, value);
      if lines[n].0 == name {
        if lines[n].1 == value { assert lines[n] == (name, value); }
      } else {
        forall k | 0 <= k < n
          ensures (lines[k] == (name, value) && forall j :: k < j < |lines| ==> lines[j].0 != name)
                  <==> (lines[..n][k] == (name, value) && forall j :: k < j < n ==> lines[..n][j].0 != name)
        {
          assert forall j :: k < j < n ==> lines[..n][j] == lines[j];
        }
      }
    }
  }

  /** A chunk is a part: a line break, its header block up to the first blank line, and its content. */
  predicate IsPart(chunk: string, raw: RawPart) {
    && chunk == CRLF + raw.head + "\r\n\r\n" + raw.content
    && Find(raw.head + "\r\n\r\n" + raw.content, "\r\n\r\n") == Some(|raw.head|)
  }

  predicate Closes(chunk: string) { "--" <= chunk }

  predicate AreParts(chunks: seq<string>, raws: seq<RawPart>) {
    |raws| <= |chunks| && forall i :: 0 <= i < |raws| ==> !Closes(chunks[i]) && IsPart(chunks[i], raws[i])
  }

  /** After these parts comes a chunk that is neither a part nor the closing one. */
  predicate FailsAfter(chunks: seq<string>, raws: seq<RawPart>, e: HttpError) {
    && AreParts(chunks, raws) && |raws| < |chunks| && !Closes(chunks[|raws|])
    && match e
       case MalformedBody => !(CRLF <= chunks[|raws|])
       case MalformedPart => CRLF <= chunks[|raws|] && !Contains(chunks[|raws|][2..], "\r\n\r\n")
       case BoundaryMissing => false
  }

  /** The cut ends with success at the closing chunk, or with the body, and fails at the first chunk that
      begins no new line or holds no blank line. */
  ghost predicate CutAs(chunks: seq<string>, r: Result<seq<RawPart>, HttpError>) {
    match r
    case Success(raws) => AreParts(chunks, raws) && (|raws| < |chunks| ==> Closes(chunks[|raws|]))
    case Failure(e) => exists raws :: FailsAfter(chunks, raws, e)
  }

  lemma {:induction false} PartitionIsPart(chunk: string, head: string, content: string)
    requires CRLF <= chunk && Partition(chunk[2..], "\r\n\r\n") == (head, true, content)
    ensures IsPart(chunk, RawPart(head, content))
  {
    CutOnce(chunk[2..], "\r\n\r\n", Find(chunk[2..], "\r\n\r\n").value);
    assert chunk[2..] == head + "\r\n\r\n" + content;
    assert chunk == CRLF + chunk[2..];
    assert chunk == CRLF + head + "\r\n\r\n" + content;
  }

  lemma {:induction false} OneMorePart(chunks: seq<string>, raw: RawPart, raws: seq<RawPart>)
    requires chunks != [] && !Closes(chunks[0]) && IsPart(chunks[0], raw) && AreParts(chunks[1..], raws)
    ensures AreParts(chunks, [raw] + raws)
  {
    forall i | 0 <= i < |[raw] + raws| ensures !Closes(chunks[i]) && IsPart(chunks[i], ([raw] + raws)[i]) {
      if i > 0 { assert chunks[i] == chunks[1..][i - 1] && ([raw] + raws)[i] == raws[i - 1]; }
    }
  }

  lemma {:induction false} FailsLater(chunks: seq<string>, raw: RawPart, raws: seq<RawPart>, e: HttpError)
    requires chunks != [] && !Closes(chunks[0]) && IsPart(chunks[0], raw) && FailsAfter(chunks[1..], raws, e)
    ensures FailsAfter(chunks, [raw] + raws, e)
  {
    OneMorePart(chunks, raw, raws);
    assert chunks[1..][|raws|] == chunks[|[raw] + raws|];
  }

  /** The chunks between delimiters are read exactly so. */
  lemma {:induction false} CutIsAs(chunks: seq<string>)
    ensures CutAs(chunks, CutChunks(chunks))
  {
    if chunks == [] || Closes(chunks[0]) {
    } else if !(CRLF <= chunks[0]) {
      assert FailsAfter(chunks, [], MalformedBody);
    } else {
      var (head, found, content) := Partition(chunks[0][2..], "\r\n\r\n");
      if !found {
        assert FailsAfter(chunks, [], MalformedPart);
      } else {
        CutIsAs(chunks[1..]);
        PartitionIsPart(chunks[0], head, content);
        FirstIsCut(chunks, RawPart(head, content));
      }
    }
  }

  lemma {:induction false} FirstIsCut(chunks: seq<string>, raw: RawPart)
    requires chunks != [] && !Closes(chunks[0]) && IsPart(chunks[0], raw) && CutAs(chunks[1..], CutChunks(chunks[1..]))
    requires CutChunks(chunks) == Then([raw], CutChunks(chunks[1..]))
    ensures CutAs(chunks, CutChunks(chunks))
  {
    match CutChunks(chunks[1..])
    case Success(rest) =>
      OneMorePart(chunks, raw, rest);
      if |rest| < |chunks[1..]| { assert chunks[1..][|rest|] == chunks[|[raw] + rest|]; }
    case Failure(e) =>
      var raws :| FailsAfter(chunks[1..], raws, e);
      FailsLater(chunks, raw, raws, e);
  }

  /** A body is refused for want of a boundary exactly if its content type names none, or an empty one. */
  lemma {:induction false} BoundaryIsNeeded(lib: Lib, body: string, contentType: string)
    ensures Parse(lib, body, contentType) == Failure(BoundaryMissing)
            <==> lib.boundaryOf(contentType).None? || lib.boundaryOf(contentType) == Some("")
  {
    if boundary :| lib.boundaryOf(contentType) == Some(boundary) && boundary != "" {
      CutIsAs(Split(CRLF + body, Delimiter(boundary))[1..]);
    }
  }
}
