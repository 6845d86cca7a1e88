/**
 * The two derived values of the configuration (internal/core/config/config.go):
 * whether an environment name denotes production, and the `host:port`
 * address of the server. Loading the configuration from the process
 * environment is not part of this model.
 */
module Config {

  import opened Optional

  /** The environment names the configuration defines. */
  const Test: string := "TEST"
  const Production: string := "PROD"

  /** The default server port the configuration declares. */
  const ServerPortDefault: int := 8080

  datatype Server = Server(hostname: string, port: int)

  // ---------------------------------------------------------------------------
  // Environment.IsProduction

  /** Upper-casing of one character, restricted to ASCII letters. */
  function UpperChar(c: char): char
  {
    if 'a' <= c <= 'z' then (c as int - 32) as char else c
  }

  function ToUpper(s: string): string
  {
    seq(|s|, i requires 0 <= i < |s| => UpperChar(s[i]))
  }

  predicate IsProduction(e: string)
    ensures IsProduction(e) ==> |e| == |Production|
    ensures e == Production ==> IsProduction(e)
  {
    assert ToUpper(Production) == Production;
    ToUpper(e) == Production
  }

  lemma UpperCharIs(c: char, u: char)
    requires 'A' <= u <= 'Z'
    ensures UpperChar(c) == u <==> c == u || c as int == u as int + 32
  {
  }

  /** An environment is production exactly when it spells PROD in any mix of cases. */
  lemma IsProductionCaseInsensitive(e: string)
    ensures IsProduction(e) <==>
      |e| == 4 && e[0] in "Pp" && e[1] in "Rr" && e[2] in "Oo" && e[3] in "Dd"
  {
    if |e| == 4 {
      UpperCharIs(e[0], 'P');
      UpperCharIs(e[1], 'R');
      UpperCharIs(e[2], 'O');
      UpperCharIs(e[3], 'D');
      var u := ToUpper(e);
      assert u == [UpperChar(e[0]), UpperChar(e[1]), UpperChar(e[2]), UpperChar(e[3])];
    } else {
      assert |ToUpper(e)| != |Production|;
    }
  }

  /** The spellings the configuration meets: lower, capitalised and upper case are production; TEST is not. */
  lemma ProductionSpellings()
    ensures IsProduction("prod") && IsProduction("Prod") && IsProduction(Production)
    ensures !IsProduction(Test) && !IsProduction("")
  {
    IsProductionCaseInsensitive("prod");
    IsProductionCaseInsensitive("Prod");
    IsProductionCaseInsensitive(Production);
    IsProductionCaseInsensitive(Test);
    IsProductionCaseInsensitive("");
  }

  // ---------------------------------------------------------------------------
  // Server.Host: the hostname, a colon and the port in decimal (Go's %d).

  function DigitChar(d: nat): char
    requires d < 10
  {
    ('0' as int + d) as char
  }

  function Digits(n: nat): string
    decreases n
  {
    if n < 10 then [DigitChar(n)] else Digits(n / 10) + [DigitChar(n % 10)]
  }

  function Decimal(n: int): string
  {
    if n < 0 then "-" + Digits(-n) else Digits(n)
  }

  function Host(s: Server): (h: string)
    ensures |h| > |s.hostname| + 1
    ensures h[..|s.hostname|] == s.hostname && h[|s.hostname|] == ':'
  {
    s.hostname + ":" + Decimal(s.port)
  }

  // Reading a decimal back, the partner of Decimal.

  predicate AllDigits(s: string)
  {
    forall i :: 0 <= i < |s| ==> '0' <= s[i] <= '9'
  }

  function ParseDigits(s: string): nat
    requires AllDigits(s)
    decreases |s|
  {
    if s == [] then 0 else ParseDigits(s[..|s| - 1]) * 10 + (s[|s| - 1] as int - '0' as int)
  }

  function ParseDecimal(s: string): Option<int>
  {
    if |s| > 1 && s[0] == '-' && AllDigits(s[1..]) then Some(0 - ParseDigits(s[1..]) as int)
    else if |s| > 0 && AllDigits(s) then Some(ParseDigits(s))
    else None
  }

  lemma {:induction false} DigitsRoundTrip(n: nat)
    ensures |Digits(n)| > 0 && AllDigits(Digits(n))
    ensures ParseDigits(Digits(n)) == n
    decreases n
  {
    if n >= 10 {
      DigitsRoundTrip(n / 10);
      var s := Digits(n);
      assert s[..|s| - 1] == Digits(n / 10);
    }
  }

  /** Decimal never writes a colon, and reading it back gives the number. */
  lemma DecimalRoundTrip(n: int)
    ensures ':' !in Decimal(n)
    ensures ParseDecimal(Decimal(n)) == Some(n)
  {
    if n < 0 {
      DigitsRoundTrip(-n);
      assert Decimal(n)[1..] == Digits(-n);
    } else {
      DigitsRoundTrip(n);
    }
  }

  /**
   * Host() is the hostname, then a colon, then the decimal port: the last
   * colon of the address sits right after the hostname, even when the hostname
   * holds colons itself, and what follows it reads back as the port.
   */
  lemma HostSplitsAtLastColon(s: Server)
    ensures |Host(s)| > |s.hostname|
    ensures Host(s)[..|s.hostname|] == s.hostname && Host(s)[|s.hostname|] == ':'
    ensures forall i :: |s.hostname| < i < |Host(s)| ==> Host(s)[i] != ':'
    ensures ParseDecimal(Host(s)[|s.hostname| + 1..]) == Some(s.port)
  {
    DecimalRoundTrip(s.port);
    var h := Host(s);
    assert h[|s.hostname| + 1..] == Decimal(s.port);
    forall i | |s.hostname| < i < |h|
      ensures h[i] != ':'
    {
      assert h[i] == Decimal(s.port)[i - |s.hostname| - 1];
    }
  }

  /** With no hostname the address is a colon and the port: the default server listens on ":8080". */
  lemma EmptyHostname(p: int)
    ensures Host(Server("", p)) == ":" + Decimal(p)
    ensures Host(Server("", ServerPortDefault)) == ":8080"
  {
  }
}
