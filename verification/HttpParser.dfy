/**
  The incremental HTTP request parser (`web_server/ContextParse.cc`, `web_server/Request.h`).
  `Parse` says what one call makes of the bytes in the buffer; the classes are the parser itself.
 */
module Http {
  import opened Bytes
  import opened Buffers

  datatype Method = Invalid | Get | Post | Head | Put | Delete
  datatype Version = Unknown | Http10 | Http11

  /** The parsed fields; the receive time is kept apart, since it depends on when bytes arrive. */
  datatype Request = Request(verb: Method, version: Version, path: seq<Byte>, query: seq<Byte>,
                             headers: map<seq<Byte>, seq<Byte>>)

  const EMPTY_REQUEST := Request(Invalid, Unknown, [], [], map[])

  datatype State = ExceptRequestLine | ExceptHeader | ExceptBody | GotAll

  datatype Parser = Parser(state: State, request: Request)

  const FRESH := Parser(ExceptRequestLine, EMPTY_REQUEST)

  /** What a call leaves behind: its result, the parser and the bytes not consumed. */
  datatype Outcome = Outcome(ok: bool, parser: Parser, rest: seq<Byte>)

  const SPACE: Byte := 32
  const TAB: Byte := 9
  const COLON: Byte := 58
  const QUESTION: Byte := 63
  const HTTP_1: seq<Byte> := [72, 84, 84, 80, 47, 49, 46]

  // ---------------------------------------------------------------- lines

  /** `std::find`: the first occurrence, or the end. */
  function Find(s: seq<Byte>, b: Byte): (i: nat)
    ensures i <= |s|
    ensures i < |s| ==> s[i] == b
    ensures forall j | 0 <= j < i :: s[j] != b
  {
    if s == [] || s[0] == b then 0 else 1 + Find(s[1..], b)
  }

  /** `isspace` in the C locale. */
  predicate IsSpace(b: Byte) {
    b == SPACE || 9 <= b <= 13
  }

  function MethodName(m: Method): seq<Byte> {
    match m
    case Get => [71, 69, 84]
    case Post => [80, 79, 83, 84]
    case Head => [72, 69, 65, 68]
    case Put => [80, 85, 84]
    case Delete => [68, 69, 76, 69, 84, 69]
    case Invalid => [85, 78, 75, 78, 79, 87]
  }

  function MethodOf(s: seq<Byte>): Method {
    if s == MethodName(Get) then Get
    else if s == MethodName(Post) then Post
    else if s == MethodName(Head) then Head
    else if s == MethodName(Put) then Put
    else if s == MethodName(Delete) then Delete
    else Invalid
  }

  function TrimLeft(s: seq<Byte>): seq<Byte> {
    if s != [] && IsSpace(s[0]) then TrimLeft(s[1..]) else s
  }

  function TrimRight(s: seq<Byte>): seq<Byte> {
    if s != [] && IsSpace(s[|s| - 1]) then TrimRight(s[..|s| - 1]) else s
  }

  function VersionOf(s: seq<Byte>): Version {
    if |s| == 8 && s[..7] == HTTP_1 then
      if s[7] == 49 then Http11 else if s[7] == 48 then Http10 else Unknown
    else Unknown
  }

  /** Path and query of a request target; the query keeps its question mark. */
  function WithTarget(r: Request, target: seq<Byte>): Request {
    var q := Find(target, QUESTION);
    if q < |target| then r.(path := target[..q], query := target[q..]) else r.(path := target)
  }

  /** A request line: fields found before the line turns out to be bad stay set. */
  function RequestLine(r: Request, line: seq<Byte>): (bool, Request) {
    var sp := Find(line, SPACE);
    if sp == |line| then (false, r)
    else
      var m := MethodOf(line[..sp]);
      var r1 := r.(verb := m);
      if m == Invalid then (false, r1)
      else
        var rest := line[sp + 1..];
        var sp2 := Find(rest, SPACE);
        if sp2 == |rest| then (false, r1)
        else
          var r2 := WithTarget(r1, rest[..sp2]);
          var v := VersionOf(rest[sp2 + 1..]);
          if v == Unknown then (false, r2) else (true, r2.(version := v))
  }

  function HeaderLine(r: Request, line: seq<Byte>, colon: nat): Request
    requires colon < |line|
  {
    r.(headers := r.headers[line[..colon] := TrimRight(TrimLeft(line[colon + 1..]))])
  }

  // ---------------------------------------------------------------- one call

  /** One call of `parseRequest` on all the bytes at hand. */
  function Parse(p: Parser, input: seq<Byte>): Outcome
    requires p.state != GotAll
    decreases |input|
  {
    var i := FirstCrlf(input);
    match p.state
    case ExceptRequestLine =>
      if i < 0 then Outcome(true, p, input)
      else
        var (ok, r) := RequestLine(p.request, input[..i]);
        if ok then Parse(Parser(ExceptHeader, r), input[i + 2..])
        else Outcome(false, Parser(ExceptRequestLine, r), input)
    case ExceptHeader =>
      if i < 0 then Outcome(true, p, input)
      else
        var colon := Find(input[..i], COLON);
        if colon < i then Parse(Parser(ExceptHeader, HeaderLine(p.request, input[..i], colon)), input[i + 2..])
        else Outcome(true, Parser(GotAll, p.request), input[i + 2..])
    case ExceptBody => Outcome(true, p.(state := GotAll), input)
  }

  /** One turn of the loop that reads a good request line. */
  lemma ParseLine(p: Parser, input: seq<Byte>, i: nat)
    requires p.state == ExceptRequestLine && i == FirstCrlf(input) && RequestLine(p.request, input[..i]).0
    ensures Parse(p, input) == Parse(Parser(ExceptHeader, RequestLine(p.request, input[..i]).1), input[i + 2..])
  {
    hide RequestLine, FirstCrlf;
  }

  lemma ParseBadLine(p: Parser, input: seq<Byte>, i: nat)
    requires p.state == ExceptRequestLine && i == FirstCrlf(input) && !RequestLine(p.request, input[..i]).0
    ensures Parse(p, input) == Outcome(false, p.(request := RequestLine(p.request, input[..i]).1), input)
  {
    hide RequestLine, FirstCrlf;
  }

  /** One turn of the loop that stores a header. */
  lemma ParseHeader(p: Parser, input: seq<Byte>, i: nat, colon: nat)
    requires p.state == ExceptHeader && i == FirstCrlf(input) && colon == Find(input[..i], COLON) < i
    ensures Parse(p, input) == Parse(p.(request := HeaderLine(p.request, input[..i], colon)), input[i + 2..])
  {
    hide HeaderLine, FirstCrlf, Find;
  }

  lemma ParseLastLine(p: Parser, input: seq<Byte>, i: nat)
    requires p.state == ExceptHeader && i == FirstCrlf(input) && Find(input[..i], COLON) == i
    ensures Parse(p, input) == Outcome(true, p.(state := GotAll), input[i + 2..])
  {
    hide HeaderLine, FirstCrlf, Find;
  }

  lemma ParseNoLine(p: Parser, input: seq<Byte>)
    requires (p.state == ExceptRequestLine || p.state == ExceptHeader) && FirstCrlf(input) < 0
    ensures Parse(p, input) == Outcome(true, p, input)
  {
    hide FirstCrlf;
  }

  // ---------------------------------------------------------------- the source's classes

  /** `class Request`: fields set one by one. */
  class RequestObject {
    var verb: Method
    var version: Version
    var path: seq<Byte>
    var query: seq<Byte>
    var receiveTime: int
    var headers: map<seq<Byte>, seq<Byte>>

    function View(): Request
      reads this
    {
      Request(verb, version, path, query, headers)
    }

    constructor ()
      ensures View() == EMPTY_REQUEST
    {
      verb, version, path, query, receiveTime, headers := Invalid, Unknown, [], [], 0, map[];
    }

    method SetMethod(name: seq<Byte>) returns (known: bool)
      requires verb == Invalid
      modifies this
      ensures View() == old(View()).(verb := MethodOf(name)) && receiveTime == old(receiveTime)
      ensures known <==> exists m: Method :: m != Invalid && MethodName(m) == name
      ensures known <==> verb != Invalid
    {
      if name == MethodName(Get) {
        verb := Get;
      } else if name == MethodName(Post) {
        verb := Post;
      } else if name == MethodName(Head) {
        verb := Head;
      } else if name == MethodName(Put) {
        verb := Put;
      } else if name == MethodName(Delete) {
        verb := Delete;
      } else {
        verb := Invalid;
      }
      known := verb != Invalid;
    }

    /** Stores a header with the blanks around its value cut off by two loops. */
    method AddHeader(line: seq<Byte>, colon: nat)
      requires colon < |line|
      modifies this
      ensures View() == HeaderLine(old(View()), line, colon) && receiveTime == old(receiveTime)
    {
      var field := line[..colon];
      var start := colon + 1;
      while start < |line| && IsSpace(line[start])
        invariant colon < start <= |line|
        invariant TrimLeft(line[start..]) == TrimLeft(line[colon + 1..])
      {
        assert line[start..][1..] == line[start + 1..];
        start := start + 1;
      }
      var value := line[start..];
      assert TrimLeft(line[colon + 1..]) == value;
      while value != [] && IsSpace(value[|value| - 1])
        invariant TrimRight(value) == TrimRight(line[start..])
      {
        value := value[..|value| - 1];
      }
      headers := headers[field := value];
    }
  }

  /** `class ContextParse`. */
  class ContextParse {
    var state: State
    const request: RequestObject

    function View(): Parser
      reads this, request
    {
      Parser(state, request.View())
    }

    /** A line that was rejected has set the method; it must not be parsed again. */
    ghost predicate Ready()
      reads this, request
    {
      state != GotAll && (state == ExceptRequestLine ==> request.verb == Invalid)
    }

    constructor ()
      ensures View() == FRESH && Ready() && fresh(request)
    {
      state := ExceptRequestLine;
      request := new RequestObject();
    }

    /** `setPath` and `setQuery` on the two sides of the first question mark. */
    method SetTarget(target: seq<Byte>)
      modifies request
      ensures request.View() == WithTarget(old(request.View()), target)
      ensures request.receiveTime == old(request.receiveTime)
    {
      var question := Find(target, QUESTION);
      if question != |target| {
        request.path := target[..question];
        request.query := target[question..];
      } else {
        request.path := target;
      }
    }

    method SetVersion(version: seq<Byte>) returns (succeed: bool)
      modifies request
      ensures succeed <==> VersionOf(version) != Unknown
      ensures succeed ==> request.View() == old(request.View()).(version := VersionOf(version))
      ensures !succeed ==> request.View() == old(request.View())
      ensures request.receiveTime == old(request.receiveTime)
    {
      succeed := |version| == 8 && version[..7] == HTTP_1;
      if succeed {
        if version[7] == 49 {
          request.version := Http11;
        } else if version[7] == 48 {
          request.version := Http10;
        } else {
          succeed := false;
        }
      }
    }

    method ProcessRequestLine(line: seq<Byte>) returns (succeed: bool)
      requires request.verb == Invalid
      modifies request
      ensures (succeed, request.View()) == RequestLine(old(request.View()), line)
      ensures request.receiveTime == old(request.receiveTime)
    {
      hide Find, MethodOf, MethodName, WithTarget, VersionOf;
      succeed := false;
      var space := Find(line, SPACE);
      if space != |line| {
        var known := request.SetMethod(line[..space]);
        if known {
          var rest := line[space + 1..];
          space := Find(rest, SPACE);
          if space != |rest| {
            SetTarget(rest[..space]);
            succeed := SetVersion(rest[space + 1..]);
          }
        }
      }
    }

    /** The loop body of `parseRequest` while a request line is awaited. */
    method StepRequestLine(buf: Buffer, receiveTime: int) returns (ok: bool, hasMore: bool)
      requires state == ExceptRequestLine && request.verb == Invalid && buf.Valid()
      modifies this, request, buf
      ensures buf.Valid() && buf.buffer == old(buf.buffer)
      ensures hasMore ==> ok && state == ExceptHeader && request.receiveTime == receiveTime
      ensures hasMore ==> Parse(View(), buf.Contents()) == Parse(old(View()), old(buf.Contents()))
                          && buf.ReadableBytes() < old(buf.ReadableBytes())
      ensures !hasMore ==> Outcome(ok, View(), buf.Contents()) == Parse(old(View()), old(buf.Contents()))
      ensures !hasMore ==> state == ExceptRequestLine && request.receiveTime == old(request.receiveTime)
      ensures !hasMore && ok ==> request.verb == Invalid
    {
      hide RequestLine, FirstCrlf, Parse;
      ghost var p, input := View(), buf.Contents();
      ok, hasMore := true, false;
      var crlf := buf.FindCRLF();
      if crlf < 0 {
        ParseNoLine(p, input);
      } else {
        var line := buf.Peek(crlf);
        ok := ProcessRequestLine(line);
        if !ok {
          ParseBadLine(p, input, crlf);
        } else {
          ParseLine(p, input, crlf);
          request.receiveTime := receiveTime;
          buf.Retrieve(crlf + 2);
          state := ExceptHeader;
          hasMore := true;
        }
      }
    }

    /** The loop body of `parseRequest` while a header line is awaited. */
    method StepHeader(buf: Buffer) returns (hasMore: bool)
      requires state == ExceptHeader && buf.Valid()
      modifies this, request, buf
      ensures buf.Valid() && buf.buffer == old(buf.buffer)
      ensures hasMore ==> state == ExceptHeader && buf.ReadableBytes() < old(buf.ReadableBytes())
      ensures hasMore ==> Parse(View(), buf.Contents()) == Parse(old(View()), old(buf.Contents()))
      ensures !hasMore ==> Outcome(true, View(), buf.Contents()) == Parse(old(View()), old(buf.Contents()))
      ensures state != ExceptRequestLine && request.receiveTime == old(request.receiveTime)
    {
      hide HeaderLine, FirstCrlf, Find, Parse;
      ghost var p, input := View(), buf.Contents();
      hasMore := false;
      var crlf := buf.FindCRLF();
      if crlf < 0 {
        ParseNoLine(p, input);
      } else {
        var line := buf.Peek(crlf);
        var colon := Find(line, COLON);
        if colon != |line| {
          ParseHeader(p, input, crlf, colon);
          request.AddHeader(line, colon);
          hasMore := true;
        } else {
          ParseLastLine(p, input, crlf);
          state := GotAll;
        }
        buf.Retrieve(crlf + 2);
      }
    }

    /** Terminates on every input, since each line read shortens the buffer. */
    method ParseRequest(buf: Buffer, receiveTime: int) returns (ok: bool)
      requires Ready() && buf.Valid()
      modifies this, request, buf
      ensures buf.Valid() && buf.buffer == old(buf.buffer)
      ensures Outcome(ok, View(), buf.Contents()) == Parse(old(View()), old(buf.Contents()))
      ensures request.receiveTime ==
              if old(state) == ExceptRequestLine && state != ExceptRequestLine then receiveTime
              else old(request.receiveTime)
      ensures ok && state != GotAll ==> Ready()
    {
      hide Parse;
      ok := true;
      var hasMore := true;
      while hasMore
        invariant buf.Valid() && buf.buffer == old(buf.buffer)
        invariant hasMore ==> ok && Ready()
        invariant hasMore ==> Parse(View(), buf.Contents()) == Parse(old(View()), old(buf.Contents()))
        invariant !hasMore ==> Outcome(ok, View(), buf.Contents()) == Parse(old(View()), old(buf.Contents()))
        invariant ok && state != GotAll ==> Ready()
        invariant request.receiveTime ==
                  if old(state) == ExceptRequestLine && state != ExceptRequestLine then receiveTime
                  else old(request.receiveTime)
        invariant old(state) != ExceptRequestLine ==> state != ExceptRequestLine
        decreases hasMore, buf.ReadableBytes()
      {
        if state == ExceptRequestLine {
          ok, hasMore := StepRequestLine(buf, receiveTime);
        } else if state == ExceptHeader {
          hasMore := StepHeader(buf);
        } else {
          ParseBody(View(), buf.Contents());
          hasMore := false;
          state := GotAll;
        }
      }
    }
  }

  lemma ParseBody(p: Parser, input: seq<Byte>)
    requires p.state == ExceptBody
    ensures Parse(p, input) == Outcome(true, p.(state := GotAll), input)
  {
  }
}
