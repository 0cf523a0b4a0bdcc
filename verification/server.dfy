/**
 * The request dispatcher of the TCP server: one received request string in, one
 * response string out. The request is classified by case-sensitive prefix, in the
 * order "GET RANGES", "REGISTER", "PUT", and everything else is an unknown command.
 */
module Server {
  import opened Decimal
  import opened Tokens

  /**
   * The two integers reported by GET RANGES. The server assigns them once, when it is
   * created, and only reads them afterwards, so they are a value here.
   */
  datatype Config = Config(stride: int, ledsQty: int)

  /** The values the server is created with: stride 6, three LEDs. */
  const Defaults: Config := Config(6, 3)

  /** `s.startswith(p)`, case-sensitive. */
  predicate StartsWith(s: string, p: string) {
    |p| <= |s| && s[..|p|] == p
  }

  /** One line of output: it ends in a newline and contains no other. */
  predicate IsLine(r: string) {
    |r| > 0 && r[|r| - 1] == '\n' && '\n' !in r[..|r| - 1]
  }

  /** A character `str(int)` can produce. */
  predicate IsNumberChar(c: char) {
    IsDigit(c) || c == '-'
  }

  lemma NumberChars(n: int)
    ensures forall i :: 0 <= i < |IntToString(n)| ==> IsNumberChar(IntToString(n)[i])
  {
    var s := IntToString(n);
    if !IsCanonicalDigits(s) {
      assert forall i :: 1 <= i < |s| ==> s[i] == s[1..][i - 1];
    }
  }

  /** A printed integer is a single whitespace-free token. */
  lemma NumberIsWord(n: int)
    ensures IsWord(IntToString(n))
  {
    NumberChars(n);
  }

  /** The body of one line: a printed integer contributes no newline. */
  lemma NumberHasNoNewline(n: int)
    ensures '\n' !in IntToString(n)
  {
    NumberChars(n);
  }

  /** `handle_get_ranges`: the JSON object `{"stride": …, "LEDs_qty": …}` on one line. */
  function HandleGetRanges(cfg: Config): (r: string)
    ensures IsLine(r)
  {
    NumberHasNoNewline(cfg.stride);
    NumberHasNoNewline(cfg.ledsQty);
    var r := "{\"stride\": " + (IntToString(cfg.stride) + (", \"LEDs_qty\": " + (IntToString(cfg.ledsQty) + "}\n")));
    assert r[..|r| - 1] == "{\"stride\": " + IntToString(cfg.stride) + ", \"LEDs_qty\": " + IntToString(cfg.ledsQty) + "}";
    r
  }

  /** `handle_register`: a fixed acknowledgement; the rest of the request is not read. */
  function HandleRegister(): (r: string)
    ensures IsLine(r)
  {
    "ACK REGISTER\n"
  }

  /**
   * `handle_put`: the state is the last whitespace-separated token of the whole request,
   * echoed back as printed from its integer value, or "Invalid state" when it is not an
   * integer literal. An empty split would raise an error the handler does not catch, so
   * callers must pass a request with at least one token.
   */
  function HandlePut(request: string): (r: string)
    requires Split(request) != []
    ensures IsLine(r)
  {
    var tokens := Split(request);
    match ParseInt(tokens[|tokens| - 1])
    case Some(state) =>
      NumberHasNoNewline(state);
      var body := "State updated to: " + IntToString(state);
      assert (body + "\n")[..|body|] == body;
      body + "\n"
    case None => "Invalid state\n"
  }

  /** `process_request`: every request, whatever it holds, gets exactly one line back. */
  function ProcessRequest(cfg: Config, request: string): (r: string)
    ensures IsLine(r)
  {
    if StartsWith(request, "GET RANGES") then HandleGetRanges(cfg)
    else if StartsWith(request, "REGISTER") then HandleRegister()
    else if StartsWith(request, "PUT") then
      assert request[0] == 'P' && !IsSpace(request[0]);
      HandlePut(request)
    else "Unknown Command\n"
  }

  /** The length of the longest prefix of `s` made of characters `str(int)` can produce. */
  function NumberRunLength(s: string): (k: nat)
    ensures k <= |s|
  {
    if s == [] || !IsNumberChar(s[0]) then 0 else 1 + NumberRunLength(s[1..])
  }

  lemma {:induction false} NumberRunOf(a: string, x: string)
    requires forall i :: 0 <= i < |a| ==> IsNumberChar(a[i])
    requires |x| > 0 && !IsNumberChar(x[0])
    ensures NumberRunLength(a + x) == |a|
    decreases |a|
  {
    if a == [] {
      assert a + x == x;
    } else {
      assert (a + x)[1..] == a[1..] + x;
      NumberRunOf(a[1..], x);
    }
  }

  /** A printed integer followed by a non-number character can be read back off the front. */
  lemma NumberPrefix(m: int, x: string, n: int, y: string)
    requires |x| > 0 && |y| > 0 && !IsNumberChar(x[0]) && !IsNumberChar(y[0])
    requires IntToString(m) + x == IntToString(n) + y
    ensures m == n && x == y
  {
    var a, b := IntToString(m), IntToString(n);
    NumberChars(m);
    NumberChars(n);
    NumberRunOf(a, x);
    NumberRunOf(b, y);
    assert a == (a + x)[..|a|] && b == (b + y)[..|b|];
    assert x == (a + x)[|a|..] && y == (b + y)[|b|..];
  }

  /** The ranges reply carries both settings unambiguously: equal replies mean equal settings. */
  lemma GetRangesDecodes(c1: Config, c2: Config)
    ensures HandleGetRanges(c1) == HandleGetRanges(c2) <==> c1 == c2
  {
    if HandleGetRanges(c1) == HandleGetRanges(c2) {
      var p, q, e := "{\"stride\": ", ", \"LEDs_qty\": ", "}\n";
      var b1, b2 := IntToString(c1.ledsQty) + e, IntToString(c2.ledsQty) + e;
      var a1, a2 := IntToString(c1.stride) + (q + b1), IntToString(c2.stride) + (q + b2);
      assert a1 == (p + a1)[|p|..] && a2 == (p + a2)[|p|..];
      NumberPrefix(c1.stride, q + b1, c2.stride, q + b2);
      assert b1 == (q + b1)[|q|..] && b2 == (q + b2)[|q|..];
      NumberPrefix(c1.ledsQty, e, c2.ledsQty, e);
    }
  }

  /**
   * GET RANGES, with anything after the prefix, is answered with the ranges line; for
   * the server's own settings that line is exactly `{"stride": 6, "LEDs_qty": 3}`.
   */
  lemma GetRangesReply(cfg: Config, request: string)
    requires StartsWith(request, "GET RANGES")
    ensures ProcessRequest(cfg, request) == HandleGetRanges(cfg)
    ensures cfg == Defaults ==> ProcessRequest(cfg, request) == "{\"stride\": 6, \"LEDs_qty\": 3}\n"
  {
    assert IntToString(6) == "6" && IntToString(3) == "3";
  }

  /** Any request that starts with REGISTER is acknowledged the same way, role or no role. */
  lemma RegisterReply(cfg: Config, request: string)
    requires StartsWith(request, "REGISTER")
    ensures ProcessRequest(cfg, request) == "ACK REGISTER\n"
  {
    assert request[0] == 'R';
  }

  /** "Unknown Command" is the reply exactly when none of the three prefixes matches. */
  lemma UnknownReply(cfg: Config, request: string)
    ensures ProcessRequest(cfg, request) == "Unknown Command\n"
        <==> !StartsWith(request, "GET RANGES") && !StartsWith(request, "REGISTER") && !StartsWith(request, "PUT")
  {
    var r := ProcessRequest(cfg, request);
    if StartsWith(request, "GET RANGES") {
      assert r[0] == '{';
    } else if StartsWith(request, "REGISTER") {
    } else if StartsWith(request, "PUT") {
      assert r[0] == 'S' || r[0] == 'I';
    }
  }

  /**
   * A PUT request is answered from its last token alone: the canonical spelling of the
   * integer when the token is an integer literal, "Invalid state" otherwise.
   */
  lemma PutReply(cfg: Config, request: string)
    requires StartsWith(request, "PUT")
    ensures var tokens := Split(request);
      |tokens| > 0 &&
      var t := tokens[|tokens| - 1];
      (IsIntLiteral(t) ==> ProcessRequest(cfg, request) == "State updated to: " + Canonical(t) + "\n") &&
      (!IsIntLiteral(t) ==> ProcessRequest(cfg, request) == "Invalid state\n")
  {
    assert request[0] == 'P' && !IsSpace(request[0]);
    var tokens := Split(request);
    var t := tokens[|tokens| - 1];
    if IsIntLiteral(t) {
      ParsePrintIsCanonical(t);
    }
  }

  /**
   * The state is the last token of the whole request: after a PUT prefix, whatever comes
   * before the final whitespace-separated token is ignored, and so is trailing whitespace.
   */
  lemma PutLastToken(cfg: Config, request: string, head: string, sep: string, t: string, tail: string)
    requires request == head + sep + t + tail
    requires StartsWith(head, "PUT")
    requires |sep| > 0 && AllSpace(sep) && IsWord(t) && AllSpace(tail)
    ensures IsIntLiteral(t) ==> ProcessRequest(cfg, request) == "State updated to: " + Canonical(t) + "\n"
    ensures !IsIntLiteral(t) ==> ProcessRequest(cfg, request) == "Invalid state\n"
  {
    assert request[..3] == head[..3];
    LastToken(head, sep, t, tail);
    PutReply(cfg, request);
  }

  /** Round trip: `PUT n`, with any trailing whitespace, echoes `n` as it was printed. */
  lemma PutRoundTrip(cfg: Config, n: int, tail: string)
    requires AllSpace(tail)
    ensures ProcessRequest(cfg, "PUT " + IntToString(n) + tail) == "State updated to: " + IntToString(n) + "\n"
  {
    var s := IntToString(n);
    NumberIsWord(n);
    CanonicalRoundTrip(s);
    ParsePrintIsCanonical(s);
    PutLastToken(cfg, "PUT " + s + tail, "PUT", " ", s, tail);
  }
}
