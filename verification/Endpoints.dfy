/**
  The two endpoint parsers: `parse_endpoint` of the CLI (tunstrap/cli_input.py)
  and `_parse_host_port` of the schema (tunstrap/schemas.py). Python's int() is
  a parameter that both share.
*/
module Endpoints {
  import opened Wrappers

  type ToInt = string -> Option<int>

  datatype Error =
    | NoUser | MissingBracket | ExpectedPort | MissingHost | BadPort | PortRange
    | NotBracketForm | MissingColon | EmptyHost

  // ------------------------------------------------------------- str.find & co.

  // The first index of `c` from k on, or the length.
  function First(s: string, c: char, k: nat): (i: nat)
    requires k <= |s|
    ensures k <= i <= |s| && (i < |s| ==> s[i] == c)
    ensures forall j :: k <= j < i ==> s[j] != c
    decreases |s| - k
  {
    if k == |s| || s[k] == c then k else First(s, c, k + 1)
  }

  // The last index of `c`, or -1.
  function Last(s: string, c: char): (i: int)
    ensures -1 <= i < |s| && (i >= 0 ==> s[i] == c)
    ensures forall j :: i < j < |s| ==> s[j] != c
  {
    if s == [] then -1
    else if s[|s| - 1] == c then |s| - 1
    else Last(s[..|s| - 1], c)
  }

  predicate PairAt(s: string, a: char, b: char, k: int) { 0 <= k && k + 1 < |s| && s[k] == a && s[k + 1] == b }

  // The first index from k on where `a` is followed by `b`, or the length.
  function FirstPair(s: string, a: char, b: char, k: nat): (i: nat)
    requires k <= |s|
    ensures k <= i <= |s| && (i < |s| ==> PairAt(s, a, b, i))
    ensures forall j :: k <= j < i ==> !PairAt(s, a, b, j)
    decreases |s| - k
  {
    if k == |s| || PairAt(s, a, b, k) then k else FirstPair(s, a, b, k + 1)
  }

  predicate Bracketed(s: string) { s != [] && s[0] == '[' }

  // -------------------------------------------------------------- the parsers

  function ParsePort(raw: string, toInt: ToInt): Result<int, Error> {
    match toInt(raw)
    case None => Err(BadPort)
    case Some(p) => if 1 <= p <= 65535 then Ok(p) else Err(PortRange)
  }

  function WithPort(host: string, port: Result<int, Error>): Result<(string, int), Error> {
    match port
    case Ok(p) => Ok((host, p))
    case Err(e) => Err(e)
  }

  // cli_input._split_host_port
  function SplitHostPort(s: string, toInt: ToInt): Result<(string, int), Error> {
    if s != [] && s[0] == '[' then
      var end := First(s, ']', 0);
      if end == |s| then Err(MissingBracket)
      else
        var host, rest := s[1..end], s[end + 1..];
        if rest == [] then Ok((host, 22))
        else if rest[0] != ':' then Err(ExpectedPort)
        else WithPort(host, ParsePort(rest[1..], toInt))
    else if ':' in s then
      var i := Last(s, ':');
      if i <= 0 then Err(MissingHost) else WithPort(s[..i], ParsePort(s[i + 1..], toInt))
    else if s == [] then Err(MissingHost)
    else Ok((s, 22))
  }

  function ParseEndpoint(s: string, toInt: ToInt): Result<(string, string, int), Error> {
    var at := First(s, '@', 0);
    if at == |s| || at == 0 then Err(NoUser)
    else match SplitHostPort(s[at + 1..], toInt)
      case Ok((host, port)) => Ok((s[..at], host, port))
      case Err(e) => Err(e)
  }

  // schemas._parse_host_port. A value with "::" has two colons, so its second test adds nothing.
  function ParseHostPort(s: string, toInt: ToInt): Result<(string, int), Error> {
    if s != [] && s[0] == '[' then
      var closing := FirstPair(s, ']', ':', 0);
      if closing == |s| then Err(NotBracketForm)
      else HostAndPort(s[1..closing], s[closing + 2..], toInt)
    else if FirstPair(s, ':', ':', 0) < |s| then Err(NotBracketForm)
    else if ':' !in s then Err(MissingColon)
    else
      var i := Last(s, ':');
      HostAndPort(if i >= 0 then s[..i] else [], s[i + 1..], toInt)
  }

  function HostAndPort(host: string, raw: string, toInt: ToInt): Result<(string, int), Error> {
    if host == [] then Err(EmptyHost) else WithPort(host, ParsePort(raw, toInt))
  }

  // -------------------------------------------------------------- the grammar

  predicate IsPort(raw: string, port: int, toInt: ToInt) { toInt(raw) == Some(port) && 1 <= port <= 65535 }

  // host, host:port, [host] or [host]:port, as a concatenation
  ghost predicate HostForm(s: string, host: string, port: int, toInt: ToInt) {
    || (port == 22 && s == host && host != [] && host[0] != '[' && ':' !in host)
    || (port == 22 && s == "[" + host + "]" && ']' !in host)
    || exists raw :: PortForm(s, host, raw) && IsPort(raw, port, toInt)
  }

  predicate PortForm(s: string, host: string, raw: string) {
    || (s == host + ":" + raw && host != [] && host[0] != '[' && ':' !in raw)
    || (s == "[" + host + "]:" + raw && ']' !in host)
  }

  ghost predicate EndpointForm(s: string, user: string, host: string, port: int, toInt: ToInt) {
    user != [] && '@' !in user && |user| < |s| && s[..|user|] == user && s[|user|] == '@'
    && HostForm(s[|user| + 1..], host, port, toInt)
  }

  // The schema's targets always name a port, and only a bracketed host may hold "::".
  ghost predicate TargetForm(s: string, host: string, port: int, toInt: ToInt) {
    host != [] && exists raw :: TargetPortForm(s, host, raw) && IsPort(raw, port, toInt)
  }

  predicate TargetPortForm(s: string, host: string, raw: string) {
    || (s == host + ":" + raw && host != [] && host[0] != '[' && ':' !in raw && NoDoubleColon(s))
    || (s == "[" + host + "]:" + raw && NoBracketColon(host))
  }

  predicate NoDoubleColon(s: string) { forall k :: 0 <= k < |s| ==> !PairAt(s, ':', ':', k) }

  predicate NoBracketColon(host: string) { forall k :: 0 <= k < |host| ==> !PairAt(host, ']', ':', k) }

  // -------------------------------------------------------------------- lemmas

  lemma {:induction false} LastOfConcat(host: string, raw: string)
    requires ':' !in raw
    ensures Last(host + ":" + raw, ':') == |host|
  {
    var s := host + ":" + raw;
    var i := Last(s, ':');
    assert s[|host|] == ':';
    assert forall j :: |host| < j < |s| ==> s[j] == raw[j - |host| - 1];
  }

  lemma {:induction false} FirstOfConcat(host: string, tail: string)
    requires ']' !in host
    ensures First("[" + host + "]" + tail, ']', 0) == |host| + 1
  {
    var s := "[" + host + "]" + tail;
    assert s[|host| + 1] == ']' && s[0] == '[';
    assert forall j :: 1 <= j <= |host| ==> s[j] == host[j - 1];
  }

  // Why the CLI refuses a port: it is no number, or it is not between 1 and 65535.
  lemma {:induction false} PortRefused(s: string, host: string, raw: string, toInt: ToInt)
    requires PortForm(s, host, raw)
    ensures SplitHostPort(s, toInt) == match toInt(raw)
                                       case None => Err(BadPort)
                                       case Some(p) => if p < 1 || p > 65535 then Err(PortRange) else Ok((host, p))
  {
    if s == host + ":" + raw && host != [] && host[0] != '[' && ':' !in raw {
      LastOfConcat(host, raw);
      assert s[0] == host[0] && s[|host|] == ':';
      assert s[..|host|] == host && s[|host| + 1..] == raw;
    } else {
      assert s == "[" + host + "]" + (":" + raw);
      FirstOfConcat(host, ":" + raw);
      assert s[0] == '[' && s[1..|host| + 1] == host;
      assert s[|host| + 2..] == ":" + raw;
      assert (":" + raw)[1..] == raw;
    }
  }

  // Parsing undoes printing ...
  lemma {:induction false} PortFormParses(s: string, host: string, raw: string, port: int, toInt: ToInt)
    requires PortForm(s, host, raw) && IsPort(raw, port, toInt)
    ensures SplitHostPort(s, toInt) == Ok((host, port))
  {
    PortRefused(s, host, raw, toInt);
  }

  lemma {:induction false} FormParses(s: string, host: string, port: int, toInt: ToInt)
    requires HostForm(s, host, port, toInt)
    ensures SplitHostPort(s, toInt) == Ok((host, port))
  {
    if port == 22 && s == host && host != [] && host[0] != '[' && ':' !in host {
    } else if port == 22 && s == "[" + host + "]" && ']' !in host {
      assert s == "[" + host + "]" + [];
      FirstOfConcat(host, []);
      assert s[0] == '[' && s[1..|host| + 1] == host;
    } else {
      var raw :| PortForm(s, host, raw) && IsPort(raw, port, toInt);
      PortFormParses(s, host, raw, port, toInt);
    }
  }

  // ... and what parses was printed so.
  lemma {:induction false} ParsedHasForm(s: string, host: string, port: int, toInt: ToInt)
    requires SplitHostPort(s, toInt) == Ok((host, port))
    ensures HostForm(s, host, port, toInt)
  {
    if s != [] && s[0] == '[' {
      var end := First(s, ']', 0);
      var rest := s[end + 1..];
      assert forall j :: 0 <= j < |host| ==> host[j] == s[j + 1];
      if rest == [] {
        assert s == "[" + host + "]";
      } else {
        assert s == "[" + host + "]:" + rest[1..];
        assert PortForm(s, host, rest[1..]) && IsPort(rest[1..], port, toInt);
      }
    } else if ':' in s {
      var i := Last(s, ':');
      assert s == s[..i] + ":" + s[i + 1..];
      assert PortForm(s, host, s[i + 1..]) && IsPort(s[i + 1..], port, toInt);
    }
  }

  // The CLI accepts exactly USER@HOST, USER@HOST:PORT, USER@[HOST] and USER@[HOST]:PORT, and hands
  // back the parts they were made of.
  lemma {:induction false} EndpointsExact(s: string, user: string, host: string, port: int, toInt: ToInt)
    ensures ParseEndpoint(s, toInt) == Ok((user, host, port)) <==> EndpointForm(s, user, host, port, toInt)
  {
    if ParseEndpoint(s, toInt) == Ok((user, host, port)) { EndpointHasForm(s, user, host, port, toInt); }
    if EndpointForm(s, user, host, port, toInt) { EndpointParses(s, user, host, port, toInt); }
  }

  lemma {:induction false} EndpointHasForm(s: string, user: string, host: string, port: int, toInt: ToInt)
    requires ParseEndpoint(s, toInt) == Ok((user, host, port))
    ensures EndpointForm(s, user, host, port, toInt)
  {
    var at := First(s, '@', 0);
    ParsedHasForm(s[at + 1..], host, port, toInt);
    assert forall j :: 0 <= j < |user| ==> user[j] == s[j];
  }

  lemma {:induction false} EndpointParses(s: string, user: string, host: string, port: int, toInt: ToInt)
    requires EndpointForm(s, user, host, port, toInt)
    ensures ParseEndpoint(s, toInt) == Ok((user, host, port))
  {
    var at := First(s, '@', 0);
    assert forall j :: 0 <= j < |user| ==> s[j] == user[j];
    assert at == |user|;
    FormParses(s[at + 1..], host, port, toInt);
  }

  // An endpoint without a user is refused as such, whatever follows.
  lemma {:induction false} UserRefused(s: string, toInt: ToInt)
    ensures ParseEndpoint(s, toInt) == Err(NoUser) <==> '@' !in s || s[0] == '@'
  {
    if First(s, '@', 0) < |s| { assert '@' in s; }
  }

  // Printing, then parsing.
  lemma {:induction false} EndpointRoundTrip(user: string, host: string, raw: string, port: int, toInt: ToInt)
    requires user != [] && '@' !in user && IsPort(raw, port, toInt)
    ensures (host != [] && host[0] != '[' && ':' !in raw ==>
               ParseEndpoint(user + "@" + host + ":" + raw, toInt) == Ok((user, host, port)))
    ensures ']' !in host ==> ParseEndpoint(user + "@[" + host + "]:" + raw, toInt) == Ok((user, host, port))
  {
    if host != [] && host[0] != '[' && ':' !in raw {
      RoundTripFrom(user + "@" + host + ":" + raw, user, host + ":" + raw, host, raw, port, toInt);
    }
    if ']' !in host {
      RoundTripFrom(user + "@[" + host + "]:" + raw, user, "[" + host + "]:" + raw, host, raw, port, toInt);
    }
  }

  lemma {:induction false} RoundTripFrom(s: string, user: string, tail: string, host: string, raw: string, port: int,
                                         toInt: ToInt)
    requires user != [] && '@' !in user && PortForm(tail, host, raw) && IsPort(raw, port, toInt)
    requires s == user + "@" + tail
    ensures ParseEndpoint(s, toInt) == Ok((user, host, port))
  {
    assert s[..|user|] == user && s[|user|] == '@' && s[|user| + 1..] == tail;
    EndpointsExact(s, user, host, port, toInt);
  }

  lemma {:induction false} PairOfConcat(host: string, raw: string)
    requires NoBracketColon(host)
    ensures FirstPair("[" + host + "]:" + raw, ']', ':', 0) == |host| + 1
  {
    var s := "[" + host + "]:" + raw;
    var i := FirstPair(s, ']', ':', 0);
    assert PairAt(s, ']', ':', |host| + 1);
    if i <= |host| {
      assert s[i] == ']' && s[i + 1] == ':' && i > 0;
      assert host[i - 1] == ']';
      if i < |host| {
        assert PairAt(host, ']', ':', i - 1);
      }
    }
  }

  // The schema accepts exactly HOST:PORT without "::" and [HOST]:PORT, with a host.
  lemma {:induction false} TargetsExact(s: string, host: string, port: int, toInt: ToInt)
    ensures ParseHostPort(s, toInt) == Ok((host, port)) <==> TargetForm(s, host, port, toInt)
  {
    if ParseHostPort(s, toInt) == Ok((host, port)) {
      TargetHasForm(s, host, port, toInt);
    }
    if TargetForm(s, host, port, toInt) {
      var raw :| TargetPortForm(s, host, raw) && IsPort(raw, port, toInt);
      TargetParses(s, host, raw, port, toInt);
    }
  }

  lemma {:induction false} TargetParses(s: string, host: string, raw: string, port: int, toInt: ToInt)
    requires host != [] && TargetPortForm(s, host, raw) && IsPort(raw, port, toInt)
    ensures ParseHostPort(s, toInt) == Ok((host, port))
  {
    if s == "[" + host + "]:" + raw && NoBracketColon(host) {
      PairOfConcat(host, raw);
      assert s[0] == '[' && s[1..|host| + 1] == host && s[|host| + 3..] == raw;
    } else {
      LastOfConcat(host, raw);
      assert s[0] == host[0] && s[|host|] == ':';
      assert s[..|host|] == host && s[|host| + 1..] == raw;
    }
  }

  lemma {:induction false} TargetHasForm(s: string, host: string, port: int, toInt: ToInt)
    requires ParseHostPort(s, toInt) == Ok((host, port))
    ensures TargetForm(s, host, port, toInt)
  {
    var raw;
    if s[0] == '[' {
      raw := BracketParts(s);
    } else {
      raw := PlainParts(s);
    }
    assert TargetPortForm(s, host, raw) && IsPort(raw, port, toInt);
  }

  lemma {:induction false} BracketParts(s: string) returns (raw: string)
    requires Bracketed(s) && FirstPair(s, ']', ':', 0) < |s|
    ensures var closing := FirstPair(s, ']', ':', 0);
            raw == s[closing + 2..] && s == "[" + s[1..closing] + "]:" + raw && NoBracketColon(s[1..closing])
  {
    var closing := FirstPair(s, ']', ':', 0);
    var host := s[1..closing];
    raw := s[closing + 2..];
    assert s == "[" + host + "]:" + raw;
    forall k | 0 <= k < |host|
      ensures !PairAt(host, ']', ':', k)
    {
      assert !PairAt(s, ']', ':', k + 1);
    }
  }

  lemma {:induction false} PlainParts(s: string) returns (raw: string)
    requires ':' in s
    ensures var i := Last(s, ':'); i >= 0 && raw == s[i + 1..] && s == s[..i] + ":" + raw && ':' !in raw
  {
    var i := Last(s, ':');
    raw := s[i + 1..];
  }

  // On every string both accept, they return the same pair.
  lemma {:induction false} ParsersAgree(s: string, toInt: ToInt)
    requires SplitHostPort(s, toInt).Ok? && ParseHostPort(s, toInt).Ok?
    ensures SplitHostPort(s, toInt) == ParseHostPort(s, toInt)
  {
    if Bracketed(s) {
      var end, closing := First(s, ']', 0), FirstPair(s, ']', ':', 0);
      if end + 1 < |s| {
        assert PairAt(s, ']', ':', end);
      }
    }
  }

  // What the schema accepts the CLI accepts too, unless the first closing bracket is not the one
  // followed by a colon.
  lemma {:induction false} SchemaWithinCli(s: string, toInt: ToInt)
    requires ParseHostPort(s, toInt).Ok?
    ensures SplitHostPort(s, toInt).Ok? <==> (Bracketed(s) ==> First(s, ']', 0) == FirstPair(s, ']', ':', 0))
  {
    var (host, port) := ParseHostPort(s, toInt).value;
    TargetsExact(s, host, port, toInt);
    var raw :| TargetPortForm(s, host, raw) && IsPort(raw, port, toInt);
    if Bracketed(s) {
      var end, closing := First(s, ']', 0), FirstPair(s, ']', ':', 0);
      assert PairAt(s, ']', ':', closing) && end <= closing;
      if end == closing {
        assert s[end + 1..][0] == ':' && s[end + 1..][1..] == s[closing + 2..];
      } else {
        assert !PairAt(s, ']', ':', end) && s[end + 1..][0] == s[end + 1];
      }
    } else {
      assert s == host + ":" + raw;
      PortFormParses(s, host, raw, port, toInt);
    }
  }

  // What the CLI accepts the schema accepts too, if it names a port and a host, and has "::" only
  // inside brackets.
  lemma {:induction false} CliWithinSchema(s: string, toInt: ToInt)
    requires SplitHostPort(s, toInt).Ok?
    ensures (ParseHostPort(s, toInt).Ok? <==>
               if Bracketed(s) then First(s, ']', 0) < |s| - 1 && s[1] != ']' else ':' in s && NoDoubleColon(s))
  {
    if Bracketed(s) {
      var end := First(s, ']', 0);
      if end < |s| - 1 {
        assert PairAt(s, ']', ':', end);
        assert s[1..end] == [] <==> s[1] == ']';
      }
    } else {
      assert FirstPair(s, ':', ':', 0) == |s| <==> NoDoubleColon(s);
    }
  }

  // A bracket inside the brackets: the schema takes it for part of the host, the CLI refuses.
  lemma {:induction false} InnerBracket(toInt: ToInt)
    requires IsPort("22", 22, toInt)
    ensures ParseHostPort("[a]b]:22", toInt) == Ok(("a]b", 22))
    ensures SplitHostPort("[a]b]:22", toInt) == Err(ExpectedPort)
  {
    var s := "[a]b]:22";
    assert TargetPortForm(s, "a]b", "22");
    TargetParses(s, "a]b", "22", 22, toInt);
    assert s[2] == ']';
    assert First(s, ']', 0) == 2;
    assert s[3..][0] == 'b';
  }

  // A bare IPv6 address: the CLI takes the last part for the port, the schema refuses.
  lemma {:induction false} BareAddress(toInt: ToInt)
    requires IsPort("22", 22, toInt)
    ensures SplitHostPort("::1:22", toInt) == Ok(("::1", 22))
    ensures ParseHostPort("::1:22", toInt) == Err(NotBracketForm)
  {
    var s := "::1:22";
    assert s == "::1" + ":" + "22";
    PortFormParses(s, "::1", "22", 22, toInt);
    assert PairAt(s, ':', ':', 0);
  }
}
