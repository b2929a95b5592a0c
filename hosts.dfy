/**
 * Host matching against the net allow list and block list. An entry is
 * either a bare host, which covers every port, or `host:port`, which covers
 * one port written in decimal.
 */
module HostLists {
  import opened Wrappers

  /** A TCP/UDP port number, a Rust `u16`. */
  type Port = n: nat | n < 0x1_0000

  predicate IsDigit(c: char) {
    '0' <= c <= '9'
  }

  function DigitChar(d: nat): (c: char)
    requires d < 10
    ensures IsDigit(c)
  {
    ('0' as int + d) as char
  }

  function DigitValue(c: char): (d: nat)
    requires IsDigit(c)
    ensures d < 10 && DigitChar(d) == c
  {
    c as int - '0' as int
  }

  /** The decimal text of `n`, as Rust's `Display` writes an unsigned integer. */
  function DecimalString(n: nat): (s: string)
    ensures 1 <= |s|
    ensures forall i :: 0 <= i < |s| ==> IsDigit(s[i])
    ensures 1 < |s| ==> s[0] != '0'
  {
    if n < 10 then [DigitChar(n)] else DecimalString(n / 10) + [DigitChar(n % 10)]
  }

  /** Reads back a string of decimal digits. */
  function ParseDecimal(s: string): nat
    requires forall i :: 0 <= i < |s| ==> IsDigit(s[i])
  {
    if s == [] then 0 else 10 * ParseDecimal(s[..|s| - 1]) + DigitValue(s[|s| - 1])
  }

  lemma {:induction false} DecimalRoundTrip(n: nat)
    ensures ParseDecimal(DecimalString(n)) == n
  {
    var s := DecimalString(n);
    if n >= 10 {
      assert s[..|s| - 1] == DecimalString(n / 10);
      DecimalRoundTrip(n / 10);
    }
  }

  /** `format!("{}:{}", host, port)`. */
  function HostPort(host: string, port: Port): string {
    host + ":" + DecimalString(port)
  }

  /** For a given host, a `host:port` entry names exactly one port. */
  lemma HostPortInjective(host: string, p: Port, q: Port)
    requires HostPort(host, p) == HostPort(host, q)
    ensures p == q
  {
    assert DecimalString(p) == HostPort(host, p)[|host| + 1..];
    assert DecimalString(q) == HostPort(host, q)[|host| + 1..];
    DecimalRoundTrip(p);
    DecimalRoundTrip(q);
  }

  /**
   * `check_host_and_port_list`: the list holds the bare host, or a port is
   * given and the list holds `host:port`.
   */
  function CheckHostAndPortList(host: string, port: Option<Port>, list: set<string>): (r: bool)
    ensures host in list ==> r
    ensures port.None? ==> (r <==> host in list)
  {
    host in list || (port.Some? && HostPort(host, port.value) in list)
  }

  /** A bare host entry covers the host on every port and without one. */
  lemma HostEntryMatchesEveryPort(host: string, port: Option<Port>)
    ensures CheckHostAndPortList(host, port, {host})
  {
  }

  /** A `host:port` entry covers that host on that port and nothing else of that host. */
  lemma PortEntryMatchesOnlyItsPort(host: string, entryPort: Port, port: Option<Port>)
    ensures CheckHostAndPortList(host, port, {HostPort(host, entryPort)}) <==> port == Some(entryPort)
  {
    assert |HostPort(host, entryPort)| > |host|;
    if port.Some? && HostPort(host, port.value) == HostPort(host, entryPort) {
      HostPortInjective(host, port.value, entryPort);
    }
  }

  /** The allow list of the `test_check_net` unit test. */
  const NetTestList: set<string> :=
    {"localhost", "deno.land", "github.com:3000", "127.0.0.1", "172.16.0.2:8000", "www.github.com:443"}

  lemma PortTexts()
    ensures DecimalString(443) == "443" && DecimalString(2000) == "2000" && DecimalString(3000) == "3000"
    ensures DecimalString(6000) == "6000" && DecimalString(8000) == "8000" && DecimalString(0) == "0"
  {
  }

  /** The host cases of `test_check_net` that are allowed. */
  lemma CheckNetAllowedExample()
    ensures CheckHostAndPortList("localhost", Some(1234), NetTestList)
    ensures CheckHostAndPortList("deno.land", Some(0), NetTestList)
    ensures CheckHostAndPortList("deno.land", Some(3000), NetTestList)
    ensures CheckHostAndPortList("github.com", Some(3000), NetTestList)
    ensures CheckHostAndPortList("127.0.0.1", Some(0), NetTestList)
    ensures CheckHostAndPortList("127.0.0.1", Some(3000), NetTestList)
    ensures CheckHostAndPortList("172.16.0.2", Some(8000), NetTestList)
  {
    PortTexts();
    assert HostPort("github.com", 3000) == "github.com:3000";
    assert HostPort("172.16.0.2", 8000) == "172.16.0.2:8000";
  }

  /**
   * The last URL case of `test_check_net`, `https://www.github.com:443/robots.txt`,
   * after parsing: host `www.github.com`, port 443 (written out, and also the
   * default port of https). It matches the `www.github.com:443` entry, and
   * would not if the port were dropped.
   */
  lemma DefaultPortUrlExample()
    ensures CheckHostAndPortList("www.github.com", Some(443), NetTestList)
    ensures !CheckHostAndPortList("www.github.com", None, NetTestList)
  {
    PortTexts();
    assert HostPort("www.github.com", 443) == "www.github.com:443";
  }

  /** The host cases of `test_check_net` that are refused. */
  lemma CheckNetRefusedExample()
    ensures !CheckHostAndPortList("deno.lands", Some(0), NetTestList)
    ensures !CheckHostAndPortList("deno.lands", Some(3000), NetTestList)
    ensures !CheckHostAndPortList("github.com", Some(0), NetTestList)
    ensures !CheckHostAndPortList("github.com", Some(2000), NetTestList)
    ensures !CheckHostAndPortList("github.net", Some(3000), NetTestList)
    ensures !CheckHostAndPortList("127.0.0.2", Some(0), NetTestList)
    ensures !CheckHostAndPortList("127.0.0.2", Some(3000), NetTestList)
    ensures !CheckHostAndPortList("172.16.0.2", Some(0), NetTestList)
    ensures !CheckHostAndPortList("172.16.0.2", Some(6000), NetTestList)
    ensures !CheckHostAndPortList("172.16.0.1", Some(8000), NetTestList)
    ensures !CheckHostAndPortList("somedomain", Some(0), NetTestList)
    ensures !CheckHostAndPortList("192.168.0.1", Some(0), NetTestList)
  {
    PortTexts();
    assert HostPort("deno.lands", 3000) == "deno.lands:3000";
    assert HostPort("github.com", 2000) == "github.com:2000";
    assert HostPort("github.net", 3000) == "github.net:3000";
    assert HostPort("172.16.0.2", 6000) == "172.16.0.2:6000";
    assert HostPort("172.16.0.1", 8000) == "172.16.0.1:8000";
  }
}
