/** What the request parser promises: it does not matter how the stream was cut, and rendering is undone. */
module HttpTheorems {
  import opened Bytes
  import opened Buffers
  import opened Http

  // ---------------------------------------------------------------- chunking

  /** A connection's parser between calls; `ok` is the result of the last call. */
  datatype Session = Session(ok: bool, parser: Parser, pending: seq<Byte>)

  /** No further call is made after a rejection or a complete request. */
  predicate Stopped(c: Session) { !c.ok || c.parser.state == GotAll }

  /** Nothing is left to do with the bytes at hand. */
  predicate Settled(c: Session) {
    Stopped(c) || (c.parser.state != ExceptBody && FirstCrlf(c.pending) < 0)
  }

  /** Bytes arrive in the buffer and, unless parsing has stopped, the parser is called. */
  function Feed(c: Session, chunk: seq<Byte>): Session {
    if Stopped(c) then c.(pending := c.pending + chunk)
    else
      var o := Parse(c.parser, c.pending + chunk);
      Session(o.ok, o.parser, o.rest)
  }

  function FeedAll(c: Session, chunks: seq<seq<Byte>>): Session
    decreases |chunks|
  {
    if chunks == [] then c else FeedAll(Feed(c, chunks[0]), chunks[1..])
  }

  function Concat(chunks: seq<seq<Byte>>): seq<Byte> {
    if chunks == [] then [] else chunks[0] + Concat(chunks[1..])
  }

  /** More input behind a line end does not move the first line end. */
  lemma FirstCrlfExtends(a: seq<Byte>, b: seq<Byte>)
    requires FirstCrlf(a) >= 0
    ensures FirstCrlf(a + b) == FirstCrlf(a)
  {
    hide FirstCrlf;
    var i := FirstCrlf(a);
    assert CrlfAt(a + b, i);
    assert forall j | 0 <= j < i :: CrlfAt(a + b, j) == CrlfAt(a, j);
  }

  function AsSession(o: Outcome): Session { Session(o.ok, o.parser, o.rest) }

  lemma {:induction false} ParseSettles(p: Parser, input: seq<Byte>)
    requires p.state != GotAll
    ensures Settled(AsSession(Parse(p, input)))
    decreases |input|
  {
    hide FirstCrlf, RequestLine, HeaderLine, Find;
    var i := FirstCrlf(input);
    if i >= 0 && p.state == ExceptRequestLine {
      var (ok, r) := RequestLine(p.request, input[..i]);
      if ok { ParseSettles(Parser(ExceptHeader, r), input[i + 2..]); }
    } else if i >= 0 && p.state == ExceptHeader {
      var colon := Find(input[..i], COLON);
      if colon < i {
        ParseSettles(Parser(ExceptHeader, HeaderLine(p.request, input[..i], colon)), input[i + 2..]);
      }
    }
  }

  /** Parsing a + b is parsing a and then going on with b. */
  lemma {:induction false} ParseAppend(p: Parser, a: seq<Byte>, b: seq<Byte>)
    requires p.state != GotAll
    ensures AsSession(Parse(p, a + b)) == Feed(AsSession(Parse(p, a)), b)
    decreases |a|
  {
    hide FirstCrlf, RequestLine, HeaderLine, Find;
    var i := FirstCrlf(a);
    if i >= 0 && p.state != ExceptBody {
      FirstCrlfExtends(a, b);
      assert (a + b)[..i] == a[..i] && (a + b)[i + 2..] == a[i + 2..] + b;
      if p.state == ExceptRequestLine {
        var (ok, r) := RequestLine(p.request, a[..i]);
        if ok { ParseAppend(Parser(ExceptHeader, r), a[i + 2..], b); }
      } else {
        var colon := Find(a[..i], COLON);
        if colon < i {
          ParseAppend(Parser(ExceptHeader, HeaderLine(p.request, a[..i], colon)), a[i + 2..], b);
        }
      }
    }
  }

  lemma FeedTwice(c: Session, a: seq<Byte>, b: seq<Byte>)
    ensures Feed(Feed(c, a), b) == Feed(c, a + b)
    ensures Settled(c) ==> Settled(Feed(c, a))
  {
    hide Parse, FirstCrlf;
    assert c.pending + a + b == c.pending + (a + b);
    if !Stopped(c) {
      ParseAppend(c.parser, c.pending + a, b);
      ParseSettles(c.parser, c.pending + a);
    }
  }

  lemma FeedNothing(c: Session)
    requires Settled(c)
    ensures Feed(c, []) == c
  {
    assert c.pending + [] == c.pending;
  }

  /**
    However the stream is cut, the calls together leave the same result, the same request and
    the same unconsumed bytes as one call on the whole.
   */
  lemma {:induction false} ChunkingIrrelevant(c: Session, chunks: seq<seq<Byte>>)
    requires Settled(c)
    ensures FeedAll(c, chunks) == Feed(c, Concat(chunks))
    decreases |chunks|
  {
    hide Feed, Settled;
    if chunks == [] {
      FeedNothing(c);
    } else {
      FeedTwice(c, chunks[0], Concat(chunks[1..]));
      ChunkingIrrelevant(Feed(c, chunks[0]), chunks[1..]);
    }
  }

  /** Two ways of cutting the same stream are indistinguishable to the parser. */
  lemma SameStreamSameParse(chunks: seq<seq<Byte>>, chunks': seq<seq<Byte>>)
    requires Concat(chunks) == Concat(chunks')
    ensures FeedAll(Session(true, FRESH, []), chunks) == FeedAll(Session(true, FRESH, []), chunks')
  {
    ChunkingIrrelevant(Session(true, FRESH, []), chunks);
    ChunkingIrrelevant(Session(true, FRESH, []), chunks');
  }

  /** The buffer and the parser object, fed chunk by chunk, end up as one call on the whole would leave them. */
  method Receive(ctx: ContextParse, buf: Buffer, chunks: seq<seq<Byte>>, times: seq<int>) returns (ok: bool)
    requires ctx.Ready() && ctx.state != ExceptBody && buf.Valid() && FirstCrlf(buf.Contents()) < 0
    requires |times| == |chunks|
    modifies ctx, ctx.request, buf, buf.buffer
    ensures buf.Valid()
    ensures Session(ok, ctx.View(), buf.Contents())
            == Feed(Session(true, old(ctx.View()), old(buf.Contents())), Concat(chunks))
  {
    hide Feed, FirstCrlf, Parse;
    ok := true;
    ghost var c0 := Session(true, ctx.View(), buf.Contents());
    var i := 0;
    assert chunks[0..] == chunks;
    while i < |chunks|
      invariant 0 <= i <= |chunks|
      invariant buf.Valid() && (buf.buffer == old(buf.buffer) || fresh(buf.buffer))
      invariant ok && ctx.state != GotAll ==> ctx.Ready()
      invariant FeedAll(Session(ok, ctx.View(), buf.Contents()), chunks[i..]) == FeedAll(c0, chunks)
    {
      ghost var c := Session(ok, ctx.View(), buf.Contents());
      assert chunks[i..][0] == chunks[i] && chunks[i..][1..] == chunks[i + 1..];
      buf.Append(chunks[i]);
      if ok && ctx.state != GotAll {
        ok := ctx.ParseRequest(buf, times[i]);
      }
      FeedIs(c, chunks[i], Session(ok, ctx.View(), buf.Contents()));
      i := i + 1;
    }
    ChunkingIrrelevant(c0, chunks);
  }

  lemma FeedIs(c: Session, chunk: seq<Byte>, d: Session)
    requires if Stopped(c) then d == c.(pending := c.pending + chunk)
             else d == AsSession(Parse(c.parser, c.pending + chunk))
    ensures Feed(c, chunk) == d
  {
  }

  // ---------------------------------------------------------------- rendering

  /** A header as sent: blanks may stand on both sides of the value (section 3.2 of RFC 7230). */
  datatype Header = Header(name: seq<Byte>, before: seq<Byte>, value: seq<Byte>, after: seq<Byte>)

  function VersionName(v: Version): seq<Byte> {
    HTTP_1 + [if v == Http11 then 49 else 48]
  }

  function RenderLine(m: Method, path: seq<Byte>, query: seq<Byte>, v: Version): seq<Byte> {
    MethodName(m) + [SPACE] + path + query + [SPACE] + VersionName(v)
  }

  function HeaderText(h: Header): seq<Byte> {
    h.name + [COLON] + h.before + h.value + h.after
  }

  function RenderHeaders(hs: seq<Header>): seq<Byte> {
    if hs == [] then [CR, LF] else HeaderText(hs[0]) + [CR, LF] + RenderHeaders(hs[1..])
  }

  /** A request without a body, in the form of section 3.1.1 of RFC 7230. */
  function Render(m: Method, path: seq<Byte>, query: seq<Byte>, v: Version, hs: seq<Header>): seq<Byte> {
    RenderLine(m, path, query, v) + [CR, LF] + RenderHeaders(hs)
  }

  /** The bytes of a text in ASCII. */
  function Ascii(s: string): seq<Byte>
    requires forall i | 0 <= i < |s| :: s[i] < 128 as char
  {
    seq(|s|, i requires 0 <= i < |s| => s[i] as int as Byte)
  }

  /** Names and separators as they are on the wire; anything else is no method and no version. */
  lemma NamesOnTheWire(s: seq<Byte>)
    ensures MethodOf(s) == if s == Ascii("GET") then Get else if s == Ascii("POST") then Post
                           else if s == Ascii("HEAD") then Head else if s == Ascii("PUT") then Put
                           else if s == Ascii("DELETE") then Delete else Invalid
    ensures VersionOf(s) == if s == Ascii("HTTP/1.1") then Http11 else if s == Ascii("HTTP/1.0") then Http10
                            else Unknown
    ensures [CR, LF, SPACE, TAB, COLON, QUESTION] == Ascii("\r\n \t:?")
  {
    assert Ascii("GET") == [71, 69, 84] && Ascii("POST") == [80, 79, 83, 84] && Ascii("HEAD") == [72, 69, 65, 68];
    assert Ascii("PUT") == [80, 85, 84] && Ascii("DELETE") == [68, 69, 76, 69, 84, 69];
    assert Ascii("HTTP/1.1") == HTTP_1 + [49] && Ascii("HTTP/1.0") == HTTP_1 + [48];
    if |s| == 8 { assert s == s[..7] + [s[7]]; }
  }

  /** White space is what `isspace` says in the C locale. */
  lemma SpaceBytes(b: Byte)
    ensures IsSpace(b) <==> b in Ascii(" \t\n\r") || b == 11 || b == 12
  {
    assert Ascii(" \t\n\r") == [32, 9, 10, 13];
  }

  predicate NoCrlf(s: seq<Byte>) { forall i | 0 <= i < |s| :: !CrlfAt(s, i) }

  predicate Free(s: seq<Byte>, b: Byte) { forall i | 0 <= i < |s| :: s[i] != b }

  predicate Blanks(s: seq<Byte>) { forall i | 0 <= i < |s| :: s[i] == SPACE || s[i] == TAB }

  predicate Trimmed(s: seq<Byte>) { s == [] || (!IsSpace(s[0]) && !IsSpace(s[|s| - 1])) }

  predicate ValidTarget(path: seq<Byte>, query: seq<Byte>) {
    && NoCrlf(path) && Free(path, SPACE) && Free(path, QUESTION)
    && NoCrlf(query) && Free(query, SPACE) && (query == [] || query[0] == QUESTION)
  }

  predicate ValidHeader(h: Header) {
    && NoCrlf(h.name) && Free(h.name, COLON) && Blanks(h.before) && Blanks(h.after)
    && NoCrlf(h.value) && Trimmed(h.value)
  }

  /** Later headers of the same name replace earlier ones. */
  function Stored(m: map<seq<Byte>, seq<Byte>>, hs: seq<Header>): map<seq<Byte>, seq<Byte>>
    decreases |hs|
  {
    if hs == [] then m else Stored(m[hs[0].name := hs[0].value], hs[1..])
  }

  lemma NoCrlfConcat(a: seq<Byte>, b: seq<Byte>)
    requires NoCrlf(a) && NoCrlf(b)
    requires a == [] || b == [] || a[|a| - 1] != CR || b[0] != LF
    ensures NoCrlf(a + b)
  {
    forall i | 0 <= i < |a + b| ensures !CrlfAt(a + b, i) {
      if i + 1 < |a| {
        assert !CrlfAt(a, i);
      } else if i >= |a| {
        assert !CrlfAt(b, i - |a|);
      }
    }
  }

  /** A line without line ends is found whole, whatever follows it. */
  lemma LineFound(line: seq<Byte>, rest: seq<Byte>)
    requires NoCrlf(line)
    ensures var s := line + [CR, LF] + rest;
            FirstCrlf(s) == |line| && s[..|line|] == line && s[|line| + 2..] == rest
  {
    hide FirstCrlf;
    var s := line + [CR, LF] + rest;
    assert CrlfAt(s, |line|);
    assert forall j | 0 <= j < |line| :: CrlfAt(s, j) == CrlfAt(line, j);
  }

  lemma FindIn(a: seq<Byte>, b: Byte, rest: seq<Byte>)
    requires Free(a, b)
    ensures var s := a + [b] + rest; Find(s, b) == |a| && s[..|a|] == a && s[|a| + 1..] == rest
  {
    hide Find;
    var s := a + [b] + rest;
    assert s[|a|] == b;
    assert forall j | 0 <= j < |a| :: s[j] == a[j];
  }

  lemma FindNone(a: seq<Byte>, b: Byte)
    requires Free(a, b)
    ensures Find(a, b) == |a|
  {
  }

  lemma MethodRoundTrip(m: Method)
    requires m != Invalid
    ensures MethodOf(MethodName(m)) == m && Free(MethodName(m), SPACE) && NoCrlf(MethodName(m))
  {
  }

  lemma VersionRoundTrip(v: Version)
    requires v != Unknown
    ensures VersionOf(VersionName(v)) == v && NoCrlf(VersionName(v)) && VersionName(v)[0] != LF
  {
    assert VersionName(v)[..7] == HTTP_1;
  }

  lemma TargetRoundTrip(r: Request, path: seq<Byte>, query: seq<Byte>)
    requires ValidTarget(path, query) && r.query == []
    ensures WithTarget(r, path + query) == r.(path := path, query := query)
  {
    hide Find;
    if query == [] {
      assert path + query == path;
      FindNone(path, QUESTION);
    } else {
      assert path + query == path + [QUESTION] + query[1..];
      FindIn(path, QUESTION, query[1..]);
      assert (path + query)[|path|..] == query;
    }
  }

  lemma RequestLineOf(r: Request, name: seq<Byte>, target: seq<Byte>, version: seq<Byte>)
    requires Free(name, SPACE) && Free(target, SPACE)
    requires MethodOf(name) != Invalid && VersionOf(version) != Unknown
    ensures RequestLine(r, name + [SPACE] + (target + [SPACE] + version))
            == (true, WithTarget(r.(verb := MethodOf(name)), target).(version := VersionOf(version)))
  {
    hide Find, MethodOf, VersionOf, WithTarget;
    FindIn(name, SPACE, target + [SPACE] + version);
    FindIn(target, SPACE, version);
  }

  /** A bad line is refused, and leaves set what was found before the first fault. */
  lemma BadRequestLine(r: Request, name: seq<Byte>, target: seq<Byte>, version: seq<Byte>)
    requires Free(name, SPACE) && Free(target, SPACE)
    ensures RequestLine(r, name) == (false, r)
    ensures MethodOf(name) == Invalid ==>
              RequestLine(r, name + [SPACE] + (target + [SPACE] + version)) == (false, r.(verb := Invalid))
    ensures RequestLine(r, name + [SPACE] + target) == (false, r.(verb := MethodOf(name)))
    ensures MethodOf(name) != Invalid && VersionOf(version) == Unknown ==>
              RequestLine(r, name + [SPACE] + (target + [SPACE] + version))
              == (false, WithTarget(r.(verb := MethodOf(name)), target))
  {
    hide Find, MethodOf, VersionOf, WithTarget;
    FindNone(name, SPACE);
    FindNone(target, SPACE);
    FindIn(name, SPACE, target);
    FindIn(name, SPACE, target + [SPACE] + version);
    FindIn(target, SPACE, version);
  }

  predicate IsRequestLine(line: seq<Byte>, m: Method, target: seq<Byte>, v: Version) {
    && m != Invalid && v != Unknown && Free(target, SPACE)
    && line == MethodName(m) + [SPACE] + (target + [SPACE] + VersionName(v))
  }

  lemma NamesOf(name: seq<Byte>, version: seq<Byte>)
    ensures MethodOf(name) != Invalid ==> MethodName(MethodOf(name)) == name
    ensures VersionOf(version) != Unknown ==> VersionName(VersionOf(version)) == version
  {
    if VersionOf(version) != Unknown { assert version == version[..7] + [version[7]]; }
  }

  /** A line is accepted exactly when it is a known method, a target and a version apart by single spaces. */
  lemma RequestLineAccepted(r: Request, line: seq<Byte>)
    ensures RequestLine(r, line).0 <==> exists m, target, v :: IsRequestLine(line, m, target, v)
  {
    hide Find, MethodOf, MethodName, VersionOf, VersionName, WithTarget;
    if RequestLine(r, line).0 {
      var sp := Find(line, SPACE);
      var rest := line[sp + 1..];
      var sp2 := Find(rest, SPACE);
      NamesOf(line[..sp], rest[sp2 + 1..]);
      assert rest == rest[..sp2] + [SPACE] + rest[sp2 + 1..];
      assert line == line[..sp] + [SPACE] + rest;
      assert IsRequestLine(line, MethodOf(line[..sp]), rest[..sp2], VersionOf(rest[sp2 + 1..]));
    }
    forall m, target, v | IsRequestLine(line, m, target, v) ensures RequestLine(r, line).0 {
      MethodRoundTrip(m);
      VersionRoundTrip(v);
      RequestLineOf(r, MethodName(m), target, VersionName(v));
    }
  }

  lemma RequestLineRoundTrip(r: Request, m: Method, path: seq<Byte>, query: seq<Byte>, v: Version)
    requires m != Invalid && v != Unknown && ValidTarget(path, query) && r.query == []
    ensures RequestLine(r, RenderLine(m, path, query, v))
            == (true, r.(verb := m, path := path, query := query, version := v))
  {
    MethodRoundTrip(m);
    VersionRoundTrip(v);
    hide MethodOf, MethodName, VersionOf, VersionName, WithTarget, RequestLine;
    var target := path + query;
    assert RenderLine(m, path, query, v) == MethodName(m) + [SPACE] + (target + [SPACE] + VersionName(v));
    RequestLineOf(r, MethodName(m), target, VersionName(v));
    TargetRoundTrip(r.(verb := m), path, query);
  }

  lemma RenderLineNoCrlf(m: Method, path: seq<Byte>, query: seq<Byte>, v: Version)
    requires m != Invalid && v != Unknown && ValidTarget(path, query)
    ensures NoCrlf(RenderLine(m, path, query, v))
  {
    MethodRoundTrip(m);
    VersionRoundTrip(v);
    hide MethodName, VersionName, NoCrlf;
    assert NoCrlf([SPACE]) by { NoCrlfOne(SPACE); }
    NoCrlfConcat(MethodName(m), [SPACE]);
    NoCrlfConcat(MethodName(m) + [SPACE], path);
    NoCrlfConcat(MethodName(m) + [SPACE] + path, query);
    NoCrlfConcat(MethodName(m) + [SPACE] + path + query, [SPACE]);
    NoCrlfConcat(MethodName(m) + [SPACE] + path + query + [SPACE], VersionName(v));
  }

  lemma NoCrlfOne(b: Byte)
    ensures NoCrlf([b])
  {
  }

  lemma BlanksNoCrlf(s: seq<Byte>)
    requires Blanks(s)
    ensures NoCrlf(s)
  {
  }

  lemma HeaderTextNoCrlf(h: Header)
    requires ValidHeader(h)
    ensures NoCrlf(HeaderText(h))
  {
    BlanksNoCrlf(h.before);
    BlanksNoCrlf(h.after);
    NoCrlfOne(COLON);
    hide NoCrlf;
    NoCrlfConcat(h.name, [COLON]);
    NoCrlfConcat(h.name + [COLON], h.before);
    assert h.value == [] || h.value[0] != LF;
    NoCrlfConcat(h.name + [COLON] + h.before, h.value);
    assert h.after == [] || h.after[0] != LF;
    NoCrlfConcat(h.name + [COLON] + h.before + h.value, h.after);
  }

  lemma {:induction false} TrimLeftBlanks(before: seq<Byte>, s: seq<Byte>)
    requires Blanks(before)
    ensures TrimLeft(before + s) == TrimLeft(s)
  {
    if before == [] {
      assert before + s == s;
    } else {
      assert (before + s)[1..] == before[1..] + s;
      TrimLeftBlanks(before[1..], s);
    }
  }

  lemma {:induction false} TrimRightBlanks(s: seq<Byte>, after: seq<Byte>)
    requires Blanks(after)
    ensures TrimRight(s + after) == TrimRight(s)
  {
    if after == [] {
      assert s + after == s;
    } else {
      var n := |after| - 1;
      assert (s + after)[..|s| + n] == s + after[..n];
      TrimRightBlanks(s, after[..n]);
    }
  }

  lemma {:induction false} TrimAllBlank(s: seq<Byte>)
    requires Blanks(s)
    ensures TrimLeft(s) == []
  {
    if s != [] { TrimAllBlank(s[1..]); }
  }

  lemma TrimRoundTrip(before: seq<Byte>, value: seq<Byte>, after: seq<Byte>)
    requires Blanks(before) && Blanks(after) && Trimmed(value)
    ensures TrimRight(TrimLeft(before + value + after)) == value
  {
    assert before + value + after == before + (value + after);
    TrimLeftBlanks(before, value + after);
    if value == [] {
      assert value + after == after;
      TrimAllBlank(after);
    } else {
      assert TrimLeft(value + after) == value + after;
      TrimRightBlanks(value, after);
    }
  }

  lemma HeaderRoundTrip(r: Request, h: Header)
    requires ValidHeader(h)
    ensures Find(HeaderText(h), COLON) == |h.name| < |HeaderText(h)|
    ensures HeaderLine(r, HeaderText(h), |h.name|) == r.(headers := r.headers[h.name := h.value])
  {
    hide Find, TrimLeft, TrimRight;
    var tail := h.before + h.value + h.after;
    assert HeaderText(h) == h.name + [COLON] + tail;
    FindIn(h.name, COLON, tail);
    TrimRoundTrip(h.before, h.value, h.after);
  }

  lemma {:induction false} HeadersRoundTrip(r: Request, hs: seq<Header>, tail: seq<Byte>)
    requires forall i | 0 <= i < |hs| :: ValidHeader(hs[i])
    ensures Parse(Parser(ExceptHeader, r), RenderHeaders(hs) + tail)
            == Outcome(true, Parser(GotAll, r.(headers := Stored(r.headers, hs))), tail)
    decreases |hs|
  {
    hide FirstCrlf, Find, HeaderLine, ValidHeader, HeaderText, RequestLine;
    if hs == [] {
      assert RenderHeaders(hs) + tail == [] + [CR, LF] + tail;
      LineFound([], tail);
      FindNone([], COLON);
    } else {
      var h := hs[0];
      var rest := RenderHeaders(hs[1..]) + tail;
      assert RenderHeaders(hs) + tail == HeaderText(h) + [CR, LF] + rest;
      HeaderTextNoCrlf(h);
      LineFound(HeaderText(h), rest);
      HeaderRoundTrip(r, h);
      HeadersRoundTrip(r.(headers := r.headers[h.name := h.value]), hs[1..], tail);
    }
  }

  /**
    Parsing a rendered request gives back its fields and leaves what follows it untouched, for
    every known method, separator-free target, and headers with blanks around their values.
   */
  lemma RequestRoundTrip(m: Method, path: seq<Byte>, query: seq<Byte>, v: Version, hs: seq<Header>, tail: seq<Byte>)
    requires m != Invalid && v != Unknown && ValidTarget(path, query)
    requires forall i | 0 <= i < |hs| :: ValidHeader(hs[i])
    ensures Parse(FRESH, Render(m, path, query, v, hs) + tail)
            == Outcome(true, Parser(GotAll, Request(m, v, path, query, Stored(map[], hs))), tail)
  {
    hide FirstCrlf, RequestLine, RenderLine, ValidHeader, ValidTarget, RenderHeaders;
    var line := RenderLine(m, path, query, v);
    var rest := RenderHeaders(hs) + tail;
    assert Render(m, path, query, v, hs) + tail == line + [CR, LF] + rest;
    RenderLineNoCrlf(m, path, query, v);
    LineFound(line, rest);
    RequestLineRoundTrip(EMPTY_REQUEST, m, path, query, v);
    HeadersRoundTrip(Request(m, v, path, query, map[]), hs, tail);
  }

  /** With distinct names, exactly the headers sent are stored. */
  lemma {:induction false} StoredDistinct(m: map<seq<Byte>, seq<Byte>>, hs: seq<Header>, i: int)
    requires forall a, b | 0 <= a < b < |hs| :: hs[a].name != hs[b].name
    ensures forall name :: name in Stored(m, hs) <==> name in m || exists k | 0 <= k < |hs| :: hs[k].name == name
    ensures forall name | name in m && (forall k | 0 <= k < |hs| :: hs[k].name != name) ::
              name in Stored(m, hs) && Stored(m, hs)[name] == m[name]
    ensures 0 <= i < |hs| ==> hs[i].name in Stored(m, hs) && Stored(m, hs)[hs[i].name] == hs[i].value
    decreases |hs|
  {
    if hs != [] {
      var m1 := m[hs[0].name := hs[0].value];
      StoredDistinct(m1, hs[1..], i - 1);
      assert forall k | 0 < k < |hs| :: hs[k] == hs[1..][k - 1];
      if i == 0 {
        assert forall k | 0 <= k < |hs| - 1 :: hs[1..][k].name != hs[0].name;
      }
    }
  }

  /** A line without a colon ends the headers just as an empty one does, and is dropped. */
  lemma ColonlessLineEnds(r: Request, line: seq<Byte>, tail: seq<Byte>)
    requires NoCrlf(line) && Free(line, COLON)
    ensures Parse(Parser(ExceptHeader, r), line + [CR, LF] + tail) == Outcome(true, Parser(GotAll, r), tail)
  {
    LineFound(line, tail);
    FindNone(line, COLON);
  }
}
