/** The multipart/form-data encoding, and exactly when `parse_multipart` reads it back. */
module MultipartRoundTrip {
  import opened Wrappers
  import opened Text
  import opened Multipart

  const BLANK_LINE := "\r\n\r\n"

  /** A part: its header lines and its content. */
  datatype Part = Part(lines: seq<string>, content: string)

  /** A header line holds no line break and does not look like the start of a delimiter line. */
  predicate LineOk(l: string) { l != "" && '\r' !in l && l[0] != '-' }

  predicate PartOk(p: Part) { p.lines != [] && forall i :: 0 <= i < |p.lines| ==> LineOk(p.lines[i]) }

  predicate PartsOk(parts: seq<Part>) { forall i :: 0 <= i < |parts| ==> PartOk(parts[i]) }

  predicate BoundaryOk(boundary: string) { boundary != "" && '\r' !in boundary }

  function Head(p: Part): string
    requires p.lines != []
  {
    Join(p.lines, CRLF)
  }

  function Chunk(p: Part): string
    requires p.lines != []
  {
    CRLF + Head(p) + BLANK_LINE + p.content
  }

  /** The body a client posts: every part between delimiter lines, then the closing delimiter and
      an epilogue of any text. */
  function Encode(parts: seq<Part>, boundary: string, epilogue: string): string
    requires PartsOk(parts)
  {
    if parts == [] then "--" + boundary + "--" + epilogue
    else "--" + boundary + Chunk(parts[0]) + CRLF + Encode(parts[1..], boundary, epilogue)
  }

  /** The delimiter occurs neither inside the content nor where the content begins, right after the
      line break that ends the headers. */
  predicate Clean(p: Part, boundary: string) {
    !Contains(CRLF + p.content, Delimiter(boundary))
  }

  function Raws(parts: seq<Part>): (raws: seq<RawPart>)
    requires PartsOk(parts)
    ensures |raws| == |parts|
  {
    if parts == [] then [] else [RawPart(Head(parts[0]), parts[0].content)] + Raws(parts[1..])
  }

  // ---- Where delimiters can occur -----------------------------------------------------------------

  function Shifted(found: Option<nat>, offset: nat): Option<nat> {
    if found.None? then None else Some(offset + found.value)
  }

  lemma Associates(a: string, b: string, c: string)
    ensures (a + b) + c == a + (b + c)
  {
  }

  /** Whatever precedes `y` is skipped in the search for `d`. */
  predicate Skipped(x: string, y: string, d: string) {
    Find(x + y, d) == Shifted(Find(y, d), |x|) && (Contains(x + y, d) <==> Contains(y, d))
  }

  lemma SkippedMore(p: string, more: string, y: string, d: string)
    requires Skipped(p, more + y, d) && Skipped(more, y, d)
    ensures Skipped(p + more, y, d)
  {
    Associates(p, more, y);
  }

  lemma OccursShifted(x: string, y: string, d: string, i: nat)
    ensures OccursAt(x + y, d, |x| + i) <==> OccursAt(y, d, i)
  {
  }

  lemma SkipsPrefix(x: string, y: string, d: string)
    requires d != "" && forall i: nat :: i < |x| ==> !OccursAt(x + y, d, i)
    ensures Skipped(x, y, d)
  {
    var (f, g) := (Find(x + y, d), Find(y, d));
    if f.Some? {
      OccursShifted(x, y, d, f.value - |x|);
      assert Contains(y, d);
    }
    if g.Some? {
      OccursShifted(x, y, d, g.value);
      assert Contains(x + y, d);
    }
  }

  /** Nothing that begins with a carriage return occurs at a position holding another character. */
  lemma SkipsPlain(l: string, y: string, d: string)
    requires '\r' !in l && d != "" && d[0] == '\r'
    ensures Skipped(l, y, d)
  {
    forall i: nat | i < |l| ensures !OccursAt(l + y, d, i) {
      assert (l + y)[i] == l[i] != '\r';
      assert i + |d| <= |l + y| ==> (l + y)[i..i + |d|][0] == (l + y)[i];
    }
    SkipsPrefix(l, y, d);
  }

  /** Nor does a delimiter begin at a line break followed by a character other than its third. */
  lemma SkipsLineBreak(y: string, d: string)
    requires |d| >= 3 && d[0] == '\r' && y != "" && y[0] != d[2]
    ensures Skipped(CRLF, y, d)
  {
    var s := CRLF + y;
    forall i: nat | i < |CRLF| ensures !OccursAt(s, d, i) {
      assert s[1] == '\n' && s[2] == y[0];
      assert i + |d| <= |s| ==> s[i..i + |d|][0] == s[i] && s[i..i + |d|][2] == s[i + 2];
    }
    SkipsPrefix(CRLF, y, d);
  }

  /** Header lines, each after a line break. */
  function Broken(lines: seq<string>): string {
    if lines == [] then "" else CRLF + lines[0] + Broken(lines[1..])
  }

  lemma {:induction false} BrokenIsJoin(lines: seq<string>)
    requires lines != []
    ensures Broken(lines) == CRLF + Join(lines, CRLF)
  {
    if |lines| == 1 {
      assert Broken(lines[1..]) == "";
    } else {
      BrokenIsJoin(lines[1..]);
    }
  }

  lemma SkipsLine(l: string, y: string, d: string)
    requires LineOk(l) && |d| >= 3 && d[0] == '\r' && (d[2] == '-' || d[2] == '\r')
    ensures Skipped(CRLF + l, y, d)
  {
    SkipsPlain(l, y, d);
    assert (l + y)[0] == l[0] && l[0] in l;
    SkipsLineBreak(l + y, d);
    assert CRLF + l + y == CRLF + (l + y);
  }

  /** Neither the delimiter nor a blank line begins within the header lines. */
  lemma {:induction false} SkipsLines(lines: seq<string>, y: string, d: string)
    requires forall i :: 0 <= i < |lines| ==> LineOk(lines[i])
    requires |d| >= 3 && d[0] == '\r' && (d[2] == '-' || d[2] == '\r')
    ensures Skipped(Broken(lines), y, d)
  {
    if lines == [] {
      assert Broken(lines) + y == y;
    } else {
      SkipsLines(lines[1..], y, d);
      SkipsLine(lines[0], Broken(lines[1..]) + y, d);
      SkippedMore(CRLF + lines[0], Broken(lines[1..]), y, d);
    }
  }

  // ---- One part ------------------------------------------------------------------------------------

  lemma ChunkIs(p: Part)
    requires p.lines != []
    ensures Chunk(p) == Broken(p.lines) + (BLANK_LINE + p.content)
  {
    BrokenIsJoin(p.lines);
  }

  lemma DelimiterShape(boundary: string)
    requires BoundaryOk(boundary)
    ensures var d := Delimiter(boundary); LeadsUniquely(d) && |d| > 4 && d[0] == '\r' && d[2] == '-'
  {
  }

  /** The chunk holds the delimiter exactly when the part is not clean. */
  lemma ChunkClean(p: Part, boundary: string)
    requires PartOk(p) && BoundaryOk(boundary)
    ensures Contains(Chunk(p), Delimiter(boundary)) <==> !Clean(p, boundary)
  {
    var d, y := Delimiter(boundary), CRLF + p.content;
    DelimiterShape(boundary);
    ChunkIs(p);
    SkipsLines(p.lines, BLANK_LINE + p.content, d);
    assert y[0] == '\r';
    SkipsLineBreak(y, d);
    assert BLANK_LINE + p.content == CRLF + y;
  }

  lemma ChunkParts(p: Part)
    requires PartOk(p)
    ensures CRLF <= Chunk(p)
    ensures Partition(Chunk(p)[2..], BLANK_LINE) == (Head(p), true, p.content)
  {
    var y := BLANK_LINE + p.content;
    ChunkIs(p);
    SkipsLines(p.lines, y, BLANK_LINE);
    assert OccursAt(y, BLANK_LINE, 0);
    BrokenIsJoin(p.lines);
    HeadBegins(p.lines, y);
    Associates(CRLF, Head(p), y);
    SkipsLineBreak(Head(p) + y, BLANK_LINE);
    PartitionAt(Chunk(p), CRLF, Head(p), BLANK_LINE, p.content);
  }

  lemma PartitionAt(s: string, n: string, h: string, d: string, c: string)
    requires s == n + h + d + c && Find(h + (d + c), d) == Some(|h|)
    ensures n <= s && Partition(s[|n|..], d) == (h, true, c)
  {
    var t := h + (d + c);
    assert s[|n|..] == t;
    assert t[..|h|] == h && t[|h| + |d|..] == c;
  }

  lemma HeadBegins(lines: seq<string>, y: string)
    requires lines != [] && LineOk(lines[0])
    ensures var s := Join(lines, CRLF) + y; s != "" && s[0] != '\r'
  {
  }

  // ---- The whole body --------------------------------------------------------------------------------

  /** What follows the first delimiter. */
  function Rest(parts: seq<Part>, boundary: string, epilogue: string): string
    requires PartsOk(parts)
  {
    if parts == [] then "--" + epilogue
    else Chunk(parts[0]) + Delimiter(boundary) + Rest(parts[1..], boundary, epilogue)
  }

  lemma {:induction false} EncodeIs(parts: seq<Part>, boundary: string, epilogue: string)
    requires PartsOk(parts)
    ensures CRLF + Encode(parts, boundary, epilogue) == Delimiter(boundary) + Rest(parts, boundary, epilogue)
  {
    if parts != [] {
      EncodeIs(parts[1..], boundary, epilogue);
      assert Delimiter(boundary) == CRLF + ("--" + boundary);
      Regroup(CRLF, "--" + boundary, Chunk(parts[0]), Encode(parts[1..], boundary, epilogue),
              Delimiter(boundary), Rest(parts[1..], boundary, epilogue));
    } else {
      assert Delimiter(boundary) == CRLF + ("--" + boundary);
    }
  }

  lemma Regroup(n: string, x: string, c: string, e: string, d: string, r: string)
    requires n + e == d + r && d == n + x
    ensures n + (x + c + n + e) == d + (c + d + r)
  {
    calc {
      n + (x + c + n + e);
      (n + x) + c + (n + e);
      d + c + (d + r);
      d + (c + d + r);
    }
  }

  lemma CutIs(parts: seq<Part>, boundary: string, epilogue: string)
    requires BoundaryOk(boundary) && PartsOk(parts)
    ensures Cut(Encode(parts, boundary, epilogue), boundary) == CutChunks(Split(Rest(parts, boundary, epilogue), Delimiter(boundary)))
  {
    var d, rest := Delimiter(boundary), Rest(parts, boundary, epilogue);
    DelimiterShape(boundary);
    EncodeIs(parts, boundary, epilogue);
    assert !Contains("", d);
    SplitInserted("", d, rest);
    assert "" + d + rest == d + rest;
  }

  lemma CleanPartIsCut(p: Part, boundary: string, rest: string)
    requires BoundaryOk(boundary) && PartOk(p) && Clean(p, boundary)
    ensures var d := Delimiter(boundary);
            CutChunks(Split(Chunk(p) + d + rest, d)) == Then([RawPart(Head(p), p.content)], CutChunks(Split(rest, d)))
  {
    var d := Delimiter(boundary);
    DelimiterShape(boundary);
    ChunkClean(p, boundary);
    SplitInserted(Chunk(p), d, rest);
    ChunkParts(p);
    var chunks := [Chunk(p)] + Split(rest, d);
    assert chunks[1..] == Split(rest, d);
    CutOne(chunks, Head(p), p.content);
  }

  /** A part cut out of a chunk accounts for the whole chunk. */
  lemma CutFirst(chunks: seq<string>)
    requires CutChunks(chunks).Success? && CutChunks(chunks).value != []
    ensures var raw := CutChunks(chunks).value[0]; |chunks[0]| == |raw.head| + |raw.content| + 6
  {
  }

  /** A part that is not clean never comes back: its chunk is cut short. */
  lemma {:induction false} UncleanPartIsLost(p: Part, boundary: string, rest: string)
    requires BoundaryOk(boundary) && PartOk(p) && !Clean(p, boundary)
    ensures var d := Delimiter(boundary);
            var r := CutChunks(Split(Chunk(p) + d + rest, d));
            r.Success? && r.value != [] ==> r.value[0] != RawPart(Head(p), p.content)
  {
    var d := Delimiter(boundary);
    var s := Chunk(p) + d + rest;
    ChunkClean(p, boundary);
    var i: nat :| i <= |Chunk(p)| && OccursAt(Chunk(p), d, i);
    assert Chunk(p)[i..i + |d|] == s[i..i + |d|];
    assert OccursAt(s, d, i);
    assert Find(s, d).Some? && Find(s, d).value < |Chunk(p)|;
    var r := CutChunks(Split(s, d));
    if r.Success? && r.value != [] { CutFirst(Split(s, d)); }
  }

  /** Cutting the encoding gives back exactly the parts if and only if every part is clean. That the
      delimiter does not occur in the contents is not enough: see `ContentCanBeginWithBoundary`. */
  lemma {:induction false} CutIsExact(parts: seq<Part>, boundary: string, epilogue: string)
    requires BoundaryOk(boundary) && PartsOk(parts)
    ensures Cut(Encode(parts, boundary, epilogue), boundary) == Success(Raws(parts))
            <==> forall i :: 0 <= i < |parts| ==> Clean(parts[i], boundary)
  {
    CutIs(parts, boundary, epilogue);
    RestIsExact(parts, boundary, epilogue);
  }

  lemma {:induction false} RestIsExact(parts: seq<Part>, boundary: string, epilogue: string)
    requires BoundaryOk(boundary) && PartsOk(parts)
    ensures CutChunks(Split(Rest(parts, boundary, epilogue), Delimiter(boundary))) == Success(Raws(parts))
            <==> forall i :: 0 <= i < |parts| ==> Clean(parts[i], boundary)
  {
    var d := Delimiter(boundary);
    if parts == [] {
      ClosingChunk(epilogue, d);
    } else {
      var rest := Rest(parts[1..], boundary, epilogue);
      RestIsExact(parts[1..], boundary, epilogue);
      if Clean(parts[0], boundary) {
        CleanPartIsCut(parts[0], boundary, rest);
        assert forall i :: 0 <= i < |parts[1..]| ==> parts[1..][i] == parts[i + 1];
        assert forall i :: 0 < i < |parts| ==> parts[i] == parts[1..][i - 1];
        var raw := RawPart(Head(parts[0]), parts[0].content);
        assert forall more :: [raw] + more == [raw] + Raws(parts[1..]) ==> ([raw] + more)[1..] == more;
      } else {
        UncleanPartIsLost(parts[0], boundary, rest);
      }
    }
  }

  lemma ClosingChunk(epilogue: string, d: string)
    requires d != ""
    ensures |d| > 2 && d[0] == '\r' ==> CutChunks(Split("--" + epilogue, d)) == Success([])
  {
  }

  /** Contents free of the delimiter do not suffice: a content that begins with the boundary line
      follows the line break of the blank line, and the two together make a delimiter. */
  lemma ContentCanBeginWithBoundary(line: string, boundary: string, epilogue: string)
    requires LineOk(line) && BoundaryOk(boundary)
    ensures var p := Part([line], "--" + boundary);
            && !Contains(p.content, Delimiter(boundary))
            && Cut(Encode([p], boundary, epilogue), boundary) != Success(Raws([p]))
  {
    var p := Part([line], "--" + boundary);
    assert CRLF + p.content == Delimiter(boundary);
    assert OccursAt(CRLF + p.content, Delimiter(boundary), 0);
    CutIsExact([p], boundary, epilogue);
    assert !Clean([p][0], boundary);
  }

  // ---- Form parts -------------------------------------------------------------------------------------

  /** A form-data part: its disposition value, its content type if it has one, and its content. */
  datatype FormPart = FormPart(disposition: string, contentType: Option<string>, content: string)

  /** A header value without line breaks or outer white space. */
  predicate ValueOk(v: string) { '\r' !in v && Strip(v) == v }

  predicate FormPartOk(p: FormPart) {
    ValueOk(p.disposition) && (p.contentType.Some? ==> ValueOk(p.contentType.value))
  }

  function Encoded(p: FormPart): (part: Part)
    ensures part.lines != []
  {
    Part(["Content-Disposition: " + p.disposition]
         + (if p.contentType.Some? then ["Content-Type: " + p.contentType.value] else []),
         p.content)
  }

  /** What the part stands for: a value under its name, a file, or nothing if it has no name. */
  function Meant(lib: Lib, p: FormPart): Piece {
    match (lib.nameOf(p.disposition), lib.filenameOf(p.disposition))
    case (None, _) => Unnamed
    case (Some(name), None) => TextPiece(name, lib.decode(p.content))
    case (Some(name), Some(filename)) =>
      var contentType := if p.contentType.Some? then p.contentType.value else "application/octet-stream";
      FilePiece(name, Upload(Basename(filename), contentType, p.content))
  }

  lemma EncodedOk(p: FormPart)
    requires FormPartOk(p)
    ensures PartOk(Encoded(p))
  {
  }

  lemma HeaderLineIs(key: string, v: string)
    requires ':' !in key && Strip(key) == key && Strip(v) == v
    ensures HeaderLine(key + ": " + v) == (Named(Lower(key)), v)
  {
    assert !Contains(key, ":") by {
      forall i: nat | i <= |key| ensures !OccursAt(key, ":", i) {
        assert i < |key| ==> key[i..i + 1][0] == key[i];
      }
    }
    FindInserted(key, ":", " " + v);
    var s := key + ":" + (" " + v);
    assert key + ": " + v == s;
    assert s[..|key|] == key && s[|key| + 1..] == " " + v;
    assert (" " + v)[1..] == v;
    assert Strip(" " + v) == Strip(v);
  }

  lemma StripIsIdle(s: string)
    requires s != "" && !IsSpace(s[0]) && !IsSpace(s[|s| - 1])
    ensures Strip(s) == s
  {
  }

  lemma DispositionKey()
    ensures Named(Lower("Content-Disposition")) == ContentDisposition
  {
  }

  lemma ContentTypeKey()
    ensures Named(Lower("Content-Type")) == ContentType
  {
  }

  lemma DispositionLine(v: string)
    requires ValueOk(v)
    ensures HeaderLine("Content-Disposition: " + v) == (ContentDisposition, v)
  {
    StripIsIdle("Content-Disposition");
    HeaderLineIs("Content-Disposition", v);
    DispositionKey();
    assert "Content-Disposition" + ": " + v == "Content-Disposition: " + v;
  }

  lemma ContentTypeLine(v: string)
    requires ValueOk(v)
    ensures HeaderLine("Content-Type: " + v) == (ContentType, v)
  {
    StripIsIdle("Content-Type");
    HeaderLineIs("Content-Type", v);
    ContentTypeKey();
    assert "Content-Type" + ": " + v == "Content-Type: " + v;
  }

  /** Splitting a header block at its line breaks gives back its lines. */
  lemma HeadSplits(p: Part)
    requires PartOk(p)
    ensures Split(Head(p), CRLF) == p.lines
  {
    forall l | l in p.lines ensures !Contains(l, CRLF) {
      var i :| 0 <= i < |p.lines| && p.lines[i] == l;
      assert LineOk(l);
      SkipsPlain(l, "", CRLF);
      assert l + "" == l && !Contains("", CRLF);
    }
    assert LeadsUniquely(CRLF);
    SplitOfJoin(p.lines, CRLF);
  }

  lemma HeadersAre(lib: Lib, p: Part, first: (HeaderName, string))
    requires PartOk(p) && lib.decode(Head(p)) == Head(p) && HeaderLine(p.lines[0]) == first
    ensures |p.lines| == 1 ==> Headers(lib, Head(p)) == map[first.0 := first.1]
    ensures |p.lines| == 2 ==> var second := HeaderLine(p.lines[1]);
                               Headers(lib, Head(p)) == map[first.0 := first.1][second.0 := second.1]
  {
    HeadSplits(p);
    var lines := HeaderLines(p.lines);
    assert [first][..0] == [];
    assert Assembled([first]) == map[first.0 := first.1];
    assert lines[..1] == [first];
    assert |lines| == 1 ==> lines == [first];
  }

  lemma EncodedHeaders(lib: Lib, p: FormPart)
    requires FormPartOk(p) && lib.decode(Head(Encoded(p))) == Head(Encoded(p))
    ensures var headers := map[ContentDisposition := p.disposition];
            Headers(lib, Head(Encoded(p)))
            == if p.contentType.Some? then headers[ContentType := p.contentType.value] else headers
  {
    EncodedOk(p);
    DispositionLine(p.disposition);
    HeadersAre(lib, Encoded(p), (ContentDisposition, p.disposition));
    if p.contentType.Some? { ContentTypeLine(p.contentType.value); }
  }

  /** The parser makes of an encoded part what the client meant by it. */
  lemma PieceIsMeant(lib: Lib, p: FormPart)
    requires FormPartOk(p) && lib.decode(Head(Encoded(p))) == Head(Encoded(p))
    ensures PieceOf(lib, RawPart(Head(Encoded(p)), p.content)) == Meant(lib, p)
  {
    EncodedHeaders(lib, p);
  }

  function EncodedParts(parts: seq<FormPart>): (r: seq<Part>)
    ensures |r| == |parts|
  {
    seq(|parts|, i requires 0 <= i < |parts| => Encoded(parts[i]))
  }

  function MeantBy(lib: Lib, parts: seq<FormPart>): (r: seq<Piece>)
    ensures |r| == |parts|
  {
    seq(|parts|, i requires 0 <= i < |parts| => Meant(lib, parts[i]))
  }

  lemma {:induction false} RawsAt(parts: seq<Part>, i: nat)
    requires PartsOk(parts) && i < |parts|
    ensures Raws(parts)[i] == RawPart(Head(parts[i]), parts[i].content)
  {
    if i > 0 { RawsAt(parts[1..], i - 1); }
  }

  /** The round trip: for any parts that are clean, the parser returns under every name exactly the
      values posted under it, in order, with text values and files apart. The library is assumed to
      read the boundary out of the content type, and to decode the header lines as they are. */
  lemma RoundTrip(lib: Lib, contentType: string, boundary: string, parts: seq<FormPart>, epilogue: string)
    requires lib.boundaryOf(contentType) == Some(boundary) && BoundaryOk(boundary)
    requires forall i :: 0 <= i < |parts| ==>
               && FormPartOk(parts[i]) && Clean(Encoded(parts[i]), boundary)
               && lib.decode(Head(Encoded(parts[i]))) == Head(Encoded(parts[i]))
    ensures PartsOk(EncodedParts(parts))
    ensures var r := Parse(lib, Encode(EncodedParts(parts), boundary, epilogue), contentType);
            && r.Success?
            && (forall name :: HoldsList(r.value.fields, name, TextsUnder(MeantBy(lib, parts), name)))
            && (forall name :: HoldsList(r.value.files, name, FilesUnder(MeantBy(lib, parts), name)))
  {
    var encoded := EncodedParts(parts);
    forall i | 0 <= i < |encoded| ensures PartOk(encoded[i]) { EncodedOk(parts[i]); }
    CutIsExact(encoded, boundary, epilogue);
    var pieces := PiecesOf(lib, Raws(encoded));
    forall i | 0 <= i < |parts| ensures pieces[i] == Meant(lib, parts[i]) {
      RawsAt(encoded, i);
      PieceIsMeant(lib, parts[i]);
    }
    assert pieces == MeantBy(lib, parts);
    forall name
      ensures HoldsList(Gathered(pieces).fields, name, TextsUnder(pieces, name))
      ensures HoldsList(Gathered(pieces).files, name, FilesUnder(pieces, name))
    {
      GatheredIsComplete(pieces, name);
    }
  }
}
