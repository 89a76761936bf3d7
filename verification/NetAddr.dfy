/** Host and port text: net.SplitHostPort of the Go library, `trimPort` and `NormalizeAddress`. */
module NetAddr {
  import opened Text

  datatype AddrError = MissingPort | TooManyColons | MissingBracket | UnexpectedOpen | UnexpectedClose

  datatype HostPort = HostPort(host: string, port: string) | Malformed(error: AddrError)

  /** net.SplitHostPort */
  function SplitHostPort(s: string): HostPort {
    var i := LastIndexOf(s, ':');
    if i < 0 then Malformed(MissingPort)
    else if s[0] == '[' then
      var end := IndexOf(s, ']');
      if end < 0 then Malformed(MissingBracket)
      else if end + 1 == |s| then Malformed(MissingPort)
      else if end + 1 != i then
        if s[end + 1] == ':' then Malformed(TooManyColons) else Malformed(MissingPort)
      else if '[' in s[1..] then Malformed(UnexpectedOpen)
      else if ']' in s[end + 1..] then Malformed(UnexpectedClose)
      else HostPort(s[1..end], s[i + 1..])
    else if ':' in s[..i] then Malformed(TooManyColons)
    else if '[' in s then Malformed(UnexpectedOpen)
    else if ']' in s then Malformed(UnexpectedClose)
    else HostPort(s[..i], s[i + 1..])
  }

  predicate NoBrackets(s: string) { '[' !in s && ']' !in s }

  /** Free of every character that SplitHostPort gives a meaning to. */
  predicate Plain(s: string) { ':' !in s && NoBrackets(s) }

  /** `s` is the pair written out: `host:port`, or `[host]:port`. */
  ghost predicate Writes(s: string, host: string, port: string) {
    && NoBrackets(host) && Plain(port)
    && (s == "[" + host + "]:" + port || (':' !in host && s == host + ":" + port))
  }

  lemma SplitPlain(host: string, port: string)
    requires Plain(host) && Plain(port)
    ensures SplitHostPort(host + ":" + port) == HostPort(host, port)
  {
    var s := host + ":" + port;
    LastIndexAt(host, ':', port);
    assert s[|host| + 1..] == port && s[..|host|] == host;
  }

  lemma SplitBracketed(host: string, port: string)
    requires NoBrackets(host) && Plain(port)
    ensures SplitHostPort("[" + host + "]:" + port) == HostPort(host, port)
  {
    hide LastIndexOf, IndexOf;
    var s := "[" + host + "]:" + port;
    assert s == ("[" + host + "]") + ":" + port;
    LastIndexAt("[" + host + "]", ':', port);
    assert s == ("[" + host) + "]" + (":" + port);
    IndexAt("[" + host, ']', ":" + port);
    assert s[1..|host| + 1] == host && s[|host| + 3..] == port;
    assert s[1..] == host + "]:" + port;
    assert s[|host| + 2..] == ":" + port;
  }

  lemma SplitWrites(s: string)
    requires SplitHostPort(s).HostPort?
    ensures Writes(s, SplitHostPort(s).host, SplitHostPort(s).port)
  {
    var HostPort(host, port) := SplitHostPort(s);
    var i := LastIndexOf(s, ':');
    if s[0] == '[' {
      var end := IndexOf(s, ']');
      assert s == "[" + host + "]:" + port;
      assert host == s[..end][1..] && port == s[end + 1..][1..];
    } else {
      assert s == host + ":" + port;
    }
  }

  /** Splitting accepts exactly the written-out pairs, and returns the pair that was written. */
  lemma SplitExactly(s: string, host: string, port: string)
    ensures SplitHostPort(s) == HostPort(host, port) <==> Writes(s, host, port)
  {
    if SplitHostPort(s) == HostPort(host, port) {
      SplitWrites(s);
    }
    if Writes(s, host, port) {
      if s == "[" + host + "]:" + port {
        SplitBracketed(host, port);
      } else {
        SplitPlain(host, port);
      }
    }
  }

  /** `trimPort`: the host part, or the whole text when it has none. */
  function TrimPort(hostPort: string): string {
    match SplitHostPort(hostPort)
    case HostPort(host, _) => if host == "" then hostPort else host
    case Malformed(_) => hostPort
  }

  /** A text without a colon is its own host; adding a port changes nothing. */
  lemma TrimPortPlain(host: string, port: string)
    requires ':' !in host
    ensures TrimPort(host) == host
    ensures Plain(host) && Plain(port) && host != "" ==> TrimPort(host + ":" + port) == host
  {
    if Plain(host) && Plain(port) {
      SplitPlain(host, port);
    }
  }

  /** Trimming twice is not trimming once: `[a:1]:2` gives `a:1`, and that gives `a`. */
  lemma TrimPortNotIdempotent(a: string, b: string, port: string)
    requires Plain(a) && Plain(b) && Plain(port) && a != ""
    ensures TrimPort("[" + (a + ":" + b) + "]:" + port) == a + ":" + b
    ensures TrimPort(a + ":" + b) == a != a + ":" + b
  {
    SplitBracketed(a + ":" + b, port);
    SplitPlain(a, b);
    assert |a + ":" + b| > |a|;
  }

  /** `s` is `[h:p]:q`. */
  ghost predicate ColonHost(s: string, h: string, p: string, q: string) {
    h != "" && Plain(h) && Plain(p) && Plain(q) && s == "[" + (h + ":" + p) + "]:" + q
  }

  /** That is the only form of text that a second trim changes. */
  lemma TrimPortTwice(s: string)
    ensures TrimPort(TrimPort(s)) != TrimPort(s) <==> exists h, p, q :: ColonHost(s, h, p, q)
  {
    hide SplitHostPort;
    var t := TrimPort(s);
    if h, p, q :| ColonHost(s, h, p, q) {
      TrimPortNotIdempotent(h, p, q);
    }
    if TrimPort(t) != t {
      var q, h, p := SplitHostPort(s).port, SplitHostPort(t).host, SplitHostPort(t).port;
      SplitExactly(s, t, q);
      SplitExactly(t, h, p);
      assert t == h + ":" + p && t[|h|] == ':';
      assert ColonHost(s, h, p, q);
    }
  }

  /** `trimPort` cuts off the port of a written-out pair with a host, and leaves every other text alone. */
  lemma TrimPortExactly(s: string)
    ensures forall host, port :: Writes(s, host, port) && host != "" ==> TrimPort(s) == host
    ensures (forall host, port :: Writes(s, host, port) ==> host == "") ==> TrimPort(s) == s
  {
    hide SplitHostPort;
    forall host, port | Writes(s, host, port) && host != "" ensures TrimPort(s) == host {
      SplitExactly(s, host, port);
    }
    if SplitHostPort(s).HostPort? {
      SplitExactly(s, SplitHostPort(s).host, SplitHostPort(s).port);
    }
  }

  lemma TwoBehind(s: string, i: int, k: nat)
    requires -1 <= i < |s| && k < |s| && s[k] == ':' && ':' !in s[i + 1..]
    ensures k <= i
  {
  }

  /** Why a text does not split: for one without brackets the number of its colons decides. */
  lemma SplitReasons(s: string)
    ensures ':' !in s ==> SplitHostPort(s) == Malformed(MissingPort)
    ensures (exists a, b, c :: s == a + ":" + b + ":" + c) && s[0] != '[' ==> SplitHostPort(s) == Malformed(TooManyColons)
    ensures s != "" && s[0] == '[' && ':' in s && ']' !in s ==> SplitHostPort(s) == Malformed(MissingBracket)
  {
    if a, b, c :| s == a + ":" + b + ":" + c {
      var i := LastIndexOf(s, ':');
      var k := |a| + 1 + |b|;
      assert s[|a|] == ':' && s[k] == ':';
      TwoBehind(s, i, k);
      assert s[..i][|a|] == ':';
    }
  }

  predicate AllDigits(s: string) {
    forall i :: 0 <= i < |s| ==> IsDigit(s[i])
  }

  function Decimal(s: string): nat
    requires AllDigits(s)
  {
    if s == "" then 0 else 10 * Decimal(s[..|s| - 1]) + (s[|s| - 1] - '0') as nat
  }

  const INT64_LIMIT: nat := 0x8000_0000_0000_0000

  /** strconv.Atoi succeeds: an optional sign and decimal digits within 64 bits. */
  predicate IsAtoi(s: string) {
    var signed := s != "" && (s[0] == '+' || s[0] == '-');
    var digits := if signed then s[1..] else s;
    && digits != "" && AllDigits(digits)
    && (Decimal(digits) < INT64_LIMIT || (signed && s[0] == '-' && Decimal(digits) == INT64_LIMIT))
  }

  /** An integer within 64 bits, written with or without a sign. */
  ghost predicate Int64Text(s: string, sign: string, digits: string) {
    && s == sign + digits && (sign == "" || sign == "+" || sign == "-")
    && digits != "" && (forall i :: 0 <= i < |digits| ==> '0' <= digits[i] <= '9')
    && (Decimal(digits) < 9223372036854775808 || (sign == "-" && Decimal(digits) == 9223372036854775808))
  }

  lemma AtoiExactly(s: string)
    ensures IsAtoi(s) <==> exists sign, digits :: Int64Text(s, sign, digits)
  {
    if IsAtoi(s) {
      var signed := s[0] == '+' || s[0] == '-';
      if signed {
        assert s == [s[0]] + s[1..];
        assert Int64Text(s, [s[0]], s[1..]);
      } else {
        assert s == "" + s;
        assert Int64Text(s, "", s);
      }
    }
    if sign, digits :| Int64Text(s, sign, digits) {
      if sign == "" {
        assert s == digits && IsDigit(s[0]);
      } else {
        assert s[0] == sign[0] && s[1..] == digits;
      }
    }
  }

  /** Decimal notation, most significant digit first. */
  lemma DecimalReads(s: string, c: char)
    requires AllDigits(s) && '0' <= c <= '9'
    ensures AllDigits(s + [c]) && Decimal(s + [c]) == 10 * Decimal(s) + (c as int - 48)
    ensures Decimal("") == 0
  {
    assert (s + [c])[..|s|] == s;
  }

  const LOOPBACK := "127.0.0.1"

  /** `NormalizeAddress`; `None` stands for the error. */
  function NormalizeAddress(addr: string): Option<string> {
    match SplitHostPort(if IsAtoi(addr) then ":" + addr else addr)
    case HostPort(host, port) => Some((if host == "" then LOOPBACK else host) + ":" + port)
    case Malformed(_) => None
  }

  lemma AtoiHasNoColon(s: string)
    requires IsAtoi(s)
    ensures Plain(s)
  {
  }

  /** The host that `NormalizeAddress` parses out of its argument. */
  function ParsedHost(addr: string): string
    requires NormalizeAddress(addr).Some?
  {
    SplitHostPort(if IsAtoi(addr) then ":" + addr else addr).host
  }

  /** What normalization makes of a written-out pair, and that it accepts nothing else but port numbers. */
  lemma NormalizeExactly(addr: string)
    requires !IsAtoi(addr)
    ensures forall host, port :: Writes(addr, host, port) ==>
              NormalizeAddress(addr) == Some((if host == "" then "127.0.0.1" else host) + ":" + port)
    ensures (forall host, port :: !Writes(addr, host, port)) ==> NormalizeAddress(addr) == None
  {
    hide SplitHostPort, IsAtoi;
    forall host, port | Writes(addr, host, port) ensures SplitHostPort(addr) == HostPort(host, port) {
      SplitExactly(addr, host, port);
    }
    if SplitHostPort(addr).HostPort? {
      SplitExactly(addr, SplitHostPort(addr).host, SplitHostPort(addr).port);
    }
  }

  /** There is no default port: a text without a colon is accepted only as a port number, on the loopback interface. */
  lemma NoDefaultPort(addr: string)
    requires ':' !in addr
    ensures NormalizeAddress(addr) == if IsAtoi(addr) then Some("127.0.0.1:" + addr) else None
  {
    if IsAtoi(addr) {
      AtoiHasNoColon(addr);
      SplitPlain("", addr);
      assert "" + ":" + addr == ":" + addr;
      assert LOOPBACK + ":" + addr == "127.0.0.1:" + addr;
    }
  }

  /** A normalized address is a non-empty host, a colon and a plain port. */
  lemma NormalizedShape(addr: string) returns (host: string, port: string)
    requires NormalizeAddress(addr).Some?
    ensures host == if ParsedHost(addr) == "" then "127.0.0.1" else ParsedHost(addr)
    ensures host != "" && NoBrackets(host) && Plain(port)
    ensures NormalizeAddress(addr).value == host + ":" + port
    ensures ':' in NormalizeAddress(addr).value
  {
    var full := if IsAtoi(addr) then ":" + addr else addr;
    SplitWrites(full);
    var HostPort(h, p) := SplitHostPort(full);
    host, port := if h == "" then LOOPBACK else h, p;
    assert NormalizeAddress(addr).value[|host|] == ':';
  }

  /** A second normalization succeeds exactly when the parsed host has no colon, and then changes nothing. */
  lemma NormalizeTwice(addr: string)
    requires NormalizeAddress(addr).Some?
    ensures NormalizeAddress(NormalizeAddress(addr).value)
            == if ':' in ParsedHost(addr) then None else NormalizeAddress(addr)
  {
    var host, port := NormalizedShape(addr);
    NormalizeWritten(host, port);
  }

  /** A bracketed IPv6 address with a port is normalized to a text that is no address any more. */
  lemma NormalizeLosesBrackets()
    ensures NormalizeAddress("[::1]:80") == Some("::1:80") && NormalizeAddress("::1:80") == None
  {
    hide SplitHostPort;
    SplitBracketed("::1", "80");
    assert "[" + "::1" + "]:" + "80" == "[::1]:80" && "::1" + ":" + "80" == "::1:80";
    assert "[::1]:80"[0] == '[';
    assert !IsAtoi("[::1]:80") by {
      if IsAtoi("[::1]:80") { AtoiHasNoColon("[::1]:80"); }
    }
    NormalizeWritten("::1", "80");
  }

  lemma NormalizeWritten(host: string, port: string)
    requires host != "" && NoBrackets(host) && Plain(port)
    ensures NormalizeAddress(host + ":" + port) == if ':' in host then None else Some(host + ":" + port)
  {
    var s := host + ":" + port;
    assert s[|host|] == ':';
    assert !IsAtoi(s) by {
      if IsAtoi(s) { AtoiHasNoColon(s); }
    }
    if ':' in host {
      ColonHostFails(host, port);
    } else {
      SplitPlain(host, port);
    }
  }

  /** Dropping the brackets of a host with a colon leaves a text that no longer splits. */
  lemma ColonHostFails(host: string, port: string)
    requires NoBrackets(host) && ':' in host && Plain(port)
    ensures SplitHostPort(host + ":" + port) == Malformed(TooManyColons)
  {
    var s := host + ":" + port;
    LastIndexAt(host, ':', port);
    assert s[|host| + 1..] == port && s[..|host|] == host;
    assert s[0] == host[0];
  }
}
