/** Session keys: numeric host, a colon, numeric port (src/net/forwarder.cpp:203-218). */
module ClientKey {
  import opened Sockets

  function Digit(d: nat): char
    requires d < 10
  {
    '0' + d as char
  }

  /** A port as `getnameinfo` prints it with NI_NUMERICSERV. */
  function Decimal(n: nat): (s: string)
    ensures s != [] && forall i :: 0 <= i < |s| ==> s[i] != ':'
  {
    if n < 10 then [Digit(n)] else Decimal(n / 10) + [Digit(n % 10)]
  }

  /** The key of a client endpoint whose host prints as `host`. */
  function Key(host: string, port: nat): string {
    host + ":" + Decimal(port)
  }

  // Reading a key back.

  function Number(s: string): int {
    if s == [] then 0 else Number(s[..|s| - 1]) * 10 + (s[|s| - 1] as int - '0' as int)
  }

  /** Splits at the last colon. */
  function Split(key: string): Option<(string, string)> {
    if key == [] then None
    else if key[|key| - 1] == ':' then Some((key[..|key| - 1], []))
    else match Split(key[..|key| - 1])
      case None => None
      case Some((host, service)) => Some((host, service + [key[|key| - 1]]))
  }

  lemma {:induction false} NumberOfDecimal(n: nat)
    ensures Number(Decimal(n)) == n
  {
    if n >= 10 {
      NumberOfDecimal(n / 10);
      assert Decimal(n)[..|Decimal(n)| - 1] == Decimal(n / 10);
    } else {
      assert Decimal(n)[..0] == [];
    }
  }

  lemma {:induction false} SplitAtLastColon(host: string, service: string)
    requires forall i :: 0 <= i < |service| ==> service[i] != ':'
    ensures Split(host + ":" + service) == Some((host, service))
  {
    var key := host + ":" + service;
    if service == [] {
      assert key[..|key| - 1] == host;
    } else {
      var shorter := service[..|service| - 1];
      SplitAtLastColon(host, shorter);
      assert key[..|key| - 1] == host + ":" + shorter;
      assert shorter + [key[|key| - 1]] == service;
    }
  }

  /** A key determines the host text and the port, also when the host itself contains colons. */
  lemma KeyRoundTrip(host: string, port: nat)
    ensures Split(Key(host, port)).Some?
    ensures Split(Key(host, port)).value.0 == host
    ensures Number(Split(Key(host, port)).value.1) == port
  {
    SplitAtLastColon(host, Decimal(port));
    NumberOfDecimal(port);
  }

  lemma KeysAreInjective(host: string, port: nat, otherHost: string, otherPort: nat)
    ensures Key(host, port) == Key(otherHost, otherPort) <==> host == otherHost && port == otherPort
  {
    KeyRoundTrip(host, port);
    KeyRoundTrip(otherHost, otherPort);
  }
}
