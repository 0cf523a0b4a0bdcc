/**
 * Concrete requests and the replies the dispatcher gives them, derived from the general
 * lemmas about prefixes, the last token and canonical printing.
 */
module ServerExamples {
  import opened Decimal
  import opened Tokens
  import opened Server

  /** REGISTER is acknowledged whether or not a role follows it. */
  lemma RegisterExamples(cfg: Config)
    ensures ProcessRequest(cfg, "REGISTER\n") == "ACK REGISTER\n"
    ensures ProcessRequest(cfg, "REGISTER SENSOR") == "ACK REGISTER\n"
    ensures ProcessRequest(cfg, "REGISTER ACTUATOR") == "ACK REGISTER\n"
  {
    RegisterReply(cfg, "REGISTER\n");
    RegisterReply(cfg, "REGISTER SENSOR");
    RegisterReply(cfg, "REGISTER ACTUATOR");
  }

  /** Prefixes are case-sensitive and must start the request. */
  lemma UnknownExamples(cfg: Config)
    ensures ProcessRequest(cfg, "put 3") == "Unknown Command\n"
    ensures ProcessRequest(cfg, " PUT 3") == "Unknown Command\n"
    ensures ProcessRequest(cfg, "FOO") == "Unknown Command\n"
  {
    UnknownReply(cfg, "put 3");
    UnknownReply(cfg, " PUT 3");
    UnknownReply(cfg, "FOO");
  }

  /** The ranges line the server sends with its own settings. */
  lemma GetRangesExample()
    ensures ProcessRequest(Defaults, "GET RANGES\n") == "{\"stride\": 6, \"LEDs_qty\": 3}\n"
  {
    GetRangesReply(Defaults, "GET RANGES\n");
  }

  /** The last token wins: `PUT 1 2` sets the state to 2. */
  lemma PutLastTokenExample(cfg: Config)
    ensures ProcessRequest(cfg, "PUT 1 2\n") == "State updated to: 2\n"
  {
    PutLastToken(cfg, "PUT 1 2\n", "PUT 1", " ", "2", "\n");
    assert IsIntLiteral("2");
  }

  /** The state is echoed as re-printed from its value, not as it was sent: leading zeros go. */
  lemma PutLeadingZerosExample(cfg: Config)
    ensures ProcessRequest(cfg, "PUT 007") == "State updated to: 7\n"
  {
    assert IsIntLiteral("007");
    assert "007"[1..] == "07" && "07"[1..] == "7";
    assert Canonical("007") == "7";
    PutLastToken(cfg, "PUT 007", "PUT", " ", "007", "");
  }

  /** A `+` sign is dropped, and a carriage return before the newline is whitespace. */
  lemma PutPlusSignExample(cfg: Config)
    ensures ProcessRequest(cfg, "PUT +5\r\n") == "State updated to: 5\n"
  {
    assert AllSpace("\r\n");
    assert IsWord("+5");
    assert IsIntLiteral("+5");
    assert Canonical("+5") == StripZeros("5") == "5";
    PutLastToken(cfg, "PUT +5\r\n", "PUT", " ", "+5", "\r\n");
  }

  /** Minus zero is zero. */
  lemma PutMinusZeroExample(cfg: Config)
    ensures ProcessRequest(cfg, "PUT -0") == "State updated to: 0\n"
  {
    assert IsIntLiteral("-0");
    assert "-0"[1..] == "0";
    assert Canonical("-0") == "0";
    PutLastToken(cfg, "PUT -0", "PUT", " ", "-0", "");
  }

  /** A last token that is not an integer is refused. */
  lemma PutNotANumberExample(cfg: Config)
    ensures ProcessRequest(cfg, "PUT abc") == "Invalid state\n"
  {
    assert IsWord("abc");
    assert !IsIntLiteral("abc");
    PutLastToken(cfg, "PUT abc", "PUT", " ", "abc", "");
  }

  /** A bare PUT has itself as its last token, which is not an integer. */
  lemma PutBareExample(cfg: Config)
    ensures ProcessRequest(cfg, "PUT") == "Invalid state\n"
  {
    assert IsWord("PUT");
    assert !IsIntLiteral("PUT");
    SplitWord("PUT");
    PutReply(cfg, "PUT");
  }
}
