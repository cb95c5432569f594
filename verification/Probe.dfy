/**
 Reading the sandbox's listening ports: `ss -ltnH` output or, failing that, /proc/net/tcp.
 */
module Probe {
  import opened Wrappers
  import opened GoStrings

  const RESERVED_PORTS: set<int> := {44772, 22, 35729}

  predicate Reserved(p: int) { p in RESERVED_PORTS }

  // --------------------------------------------------------------- numbers

  /** The value of a digit in any base up to 16, or 16 when c is no digit. */
  function Digit(c: char): nat {
    if '0' <= c <= '9' then (c - '0') as int
    else if 'a' <= c <= 'f' then (c - 'a') as int + 10
    else if 'A' <= c <= 'F' then (c - 'A') as int + 10
    else 16
  }

  function Digits(s: string, base: nat): Option<nat> {
    if s == "" then Some(0)
    else
      var d := Digit(s[|s| - 1]);
      match Digits(s[..|s| - 1], base)
      case Some(v) => if d < base then Some(v * base + d) else None
      case None => None
  }

  /** strconv.ParseInt for a base without prefixes, before its range check: an optional sign and digits. */
  function ParseInt(s: string, base: nat): Option<int> {
    var unsigned := if HasPrefix(s, "-") || HasPrefix(s, "+") then s[1..] else s;
    if unsigned == "" then None
    else match Digits(unsigned, base)
      case Some(v) => if HasPrefix(s, "-") then Some(-(v as int)) else Some(v)
      case None => None
  }

  /** hexPort: the port of a local_address such as 0100007F:0BB8, or 0; 32-bit range. */
  function HexPort(addr: string): int {
    var i := LastIndex(addr, ':');
    if i < 0 then 0
    else match ParseInt(addr[i + 1..], 16)
      case Some(p) => if -0x8000_0000 <= p <= 0x7FFF_FFFF then p else 0
      case None => 0
  }

  /** The port an `ss` field names, if it is an address with a numeric port in range. */
  function SsPort(f: string): Option<int> {
    var i := LastIndex(f, ':');
    if i > 0 && i < |f| - 1 && !HasSuffix(f, ":*") then
      match ParseInt(f[i + 1..], 10)
      case Some(p) => if 0 < p < 65536 then Some(p) else None
      case None => None
    else None
  }

  function FirstSsPort(fs: seq<string>): Option<int> {
    if fs == [] then None
    else if SsPort(fs[0]).Some? then SsPort(fs[0])
    else FirstSsPort(fs[1..])
  }

  /** A /proc/net/tcp row: a slot number ending in a colon, and a two-byte state. */
  predicate IsProcRow(fs: seq<string>) {
    |fs| >= 4 && HasSuffix(fs[0], ":") && ByteLen(fs[3]) == 2
  }

  /** The one port a line contributes, if any. */
  function LinePort(line: string): Option<int> {
    var fs := Fields(line);
    if IsProcRow(fs) then
      if fs[3] == "0A" && HexPort(fs[1]) > 0 then Some(HexPort(fs[1])) else None
    else FirstSsPort(fs)
  }

  // --------------------------------------------------------------- sorting

  predicate Ascending(s: seq<int>) { forall i, j | 0 <= i < j < |s| :: s[i] < s[j] }

  /** sort.Ints on a list without duplicates. */
  function Insert(x: int, s: seq<int>): (r: seq<int>)
    requires Ascending(s) && x !in s
    ensures Ascending(r)
    ensures forall y :: y in r <==> y == x || y in s
  {
    if s == [] then [x]
    else if x < s[0] then [x] + s
    else
      assert Ascending(s[1..]);
      var r := Insert(x, s[1..]);
      assert forall y | y in r :: y == x || y in s[1..];
      assert forall j | 0 <= j < |r| :: r[j] in r;
      assert forall y | y in s[1..] :: s[0] < y;
      [s[0]] + r
  }

  function SortInts(s: seq<int>): (r: seq<int>)
    requires forall i, j | 0 <= i < j < |s| :: s[i] != s[j]
    ensures Ascending(r)
    ensures forall y :: y in r <==> y in s
  {
    if s == [] then [] else Insert(s[0], SortInts(s[1..]))
  }

  /** An ascending list is determined by its elements. */
  lemma {:induction false} AscendingUnique(a: seq<int>, b: seq<int>)
    requires Ascending(a) && Ascending(b)
    requires forall y :: y in a <==> y in b
    ensures a == b
  {
    assert a != [] ==> a[0] in a && a[0] in b;
    assert b != [] ==> b[0] in b && b[0] in a;
    if a != [] && b != [] {
      assert a[0] == b[0];
      forall y ensures y in a[1..] <==> y in b[1..] {
        assert y in a[1..] <==> y in a && y != a[0];
        assert y in b[1..] <==> y in b && y != b[0];
      }
      AscendingUnique(a[1..], b[1..]);
      assert a == [a[0]] + a[1..] && b == [b[0]] + b[1..];
    }
  }

  // --------------------------------------------------------- ParseListening

  predicate Names(ls: seq<string>, p: int) {
    exists l | l in ls :: LinePort(l) == Some(p)
  }

  /** The unreserved ports the lines name, ascending and each once. */
  function Listening(ls: seq<string>): (ports: seq<int>)
    ensures Ascending(ports)
  {
    if ls == [] then []
    else
      var rest := Listening(ls[1..]);
      var p := LinePort(ls[0]);
      if p.Some? && !Reserved(p.value) && p.value !in rest then Insert(p.value, rest) else rest
  }

  lemma NamesCons(ls: seq<string>)
    requires ls != []
    ensures forall q :: Names(ls, q) <==> LinePort(ls[0]) == Some(q) || Names(ls[1..], q)
  {
    hide LinePort;
    assert forall l :: l in ls <==> l == ls[0] || l in ls[1..];
  }

  /** It lists exactly the unreserved ports that some line decodes to. */
  lemma {:induction false} ListeningMembers(ls: seq<string>)
    ensures forall p :: p in Listening(ls) <==> Names(ls, p) && p != 22 && p != 35729 && p != 44772
  {
    if ls != [] {
      ListeningMembers(ls[1..]);
      NamesCons(ls);
      hide Names, LinePort;
    }
  }

  /** The body of ParseListening's line loop. */
  method ParseLine(line: string) returns (port: Option<int>)
    ensures port == LinePort(line)
  {
    var fields := Fields(line);
    if |fields| == 0 {
      return None;
    }
    if IsProcRow(fields) {
      if fields[3] != "0A" {
        return None;
      }
      var p := HexPort(fields[1]);
      return if p > 0 then Some(p) else None;
    }
    for j := 0 to |fields|
      invariant FirstSsPort(fields) == FirstSsPort(fields[j..])
    {
      var p := SsPort(fields[j]);
      if p.Some? {
        return p;
      }
      assert fields[j..][1..] == fields[j + 1..];
    }
    return None;
  }

  /** ParseListening: every unreserved port some line names, ascending. */
  method ParseListening(out: string) returns (ports: seq<int>)
    ensures ports == Listening(Lines(out))
  {
    hide LinePort, Listening, Lines;
    var seen: set<int> := {};
    var ls := Lines(out);
    for n := 0 to |ls|
      invariant forall p :: p in seen <==> exists k | 0 <= k < n :: LinePort(ls[k]) == Some(p)
    {
      var p := ParseLine(ls[n]);
      if p.Some? {
        seen := seen + {p.value};
      }
    }
    ports := Unreserved(seen);
    ports := SortInts(ports);
    assert forall p :: Names(ls, p) <==> exists k | 0 <= k < |ls| :: LinePort(ls[k]) == Some(p);
    ListeningMembers(ls);
    AscendingUnique(ports, Listening(ls));
  }

  /** The unreserved ports of a set, each once, in no particular order, as a Go map is ranged over. */
  method Unreserved(seen: set<int>) returns (ports: seq<int>)
    ensures forall i, j | 0 <= i < j < |ports| :: ports[i] != ports[j]
    ensures forall p :: p in ports <==> p in seen && !Reserved(p)
  {
    ports := [];
    var rest := seen;
    while exists p :: p in rest
      invariant rest <= seen
      invariant forall p | p in ports :: p in seen && p !in rest && !Reserved(p)
      invariant forall p | p in seen && p !in rest && !Reserved(p) :: p in ports
      invariant forall i, j | 0 <= i < j < |ports| :: ports[i] != ports[j]
      decreases rest
    {
      var p :| p in rest;
      if !Reserved(p) {
        ports := ports + [p];
      }
      rest := rest - {p};
    }
  }

  /** Every port listed is positive and unreserved. */
  lemma ListedPortsAreUsable(ls: seq<string>)
    ensures forall p | p in Listening(ls) :: p > 0 && !Reserved(p) && p != 22 && p != 35729 && p != 44772
  {
    ListeningMembers(ls);
    forall p | p in Listening(ls) ensures p > 0 {
      var l :| l in ls && LinePort(l) == Some(p);
      if !IsProcRow(Fields(l)) {
        FirstSsPortInRange(Fields(l));
      }
    }
  }

  lemma {:induction false} FirstSsPortInRange(fs: seq<string>)
    ensures FirstSsPort(fs).Some? ==> 0 < FirstSsPort(fs).value < 65536
  {
    if fs != [] {
      FirstSsPortInRange(fs[1..]);
    }
  }

  /** Only the set of lines matters: reordering lines, or repeating them, changes nothing. */
  lemma LineOrderIrrelevant(a: seq<string>, b: seq<string>)
    requires forall l :: l in a <==> l in b
    ensures Listening(a) == Listening(b)
  {
    ListeningMembers(a);
    ListeningMembers(b);
    forall p ensures Names(a, p) <==> Names(b, p) {}
    AscendingUnique(Listening(a), Listening(b));
  }

  // ------------------------------------------------------------ round trip

  function HexDigit(d: nat): (c: char)
    requires d < 16
    ensures Digit(c) == d && c != ':' && c != '+' && c != '-'
  {
    if d < 10 then '0' + d as char else 'A' + (d - 10) as char
  }

  /** The kernel's rendering of a port: four upper-case hex digits. */
  function Hex4(p: nat): string
    requires p < 65536
  {
    [HexDigit(p / 4096), HexDigit(p / 256 % 16), HexDigit(p / 16 % 16), HexDigit(p % 16)]
  }

  lemma {:induction false} LastIndexAfter(a: string, b: string)
    requires ':' !in b
    ensures LastIndex(a + ":" + b, ':') == |a|
  {
    var s := a + ":" + b;
    if b != "" {
      assert s[..|s| - 1] == a + ":" + b[..|b| - 1];
      LastIndexAfter(a, b[..|b| - 1]);
    }
  }

  lemma DigitsSnoc(s: string, c: char, base: nat)
    ensures Digits(s + [c], base) ==
      match Digits(s, base)
      case Some(v) => if Digit(c) < base then Some(v * base + Digit(c)) else None
      case None => None
  {
    assert (s + [c])[..|s|] == s;
  }

  /** Appending a number's last hex digit to the digits of the rest. */
  lemma DigitsOfQuotient(s: string, q: nat)
    requires Digits(s, 16) == Some(q / 16)
    ensures Digits(s + [HexDigit(q % 16)], 16) == Some(q)
  {
    DigitsSnoc(s, HexDigit(q % 16), 16);
    assert q == q / 16 * 16 + q % 16;
  }

  lemma DigitsOfHex4(p: nat)
    requires p < 65536
    ensures Digits(Hex4(p), 16) == Some(p)
  {
    assert p / 16 / 16 / 16 == p / 4096 && p / 16 / 16 == p / 256;
    var a, b, c := HexDigit(p / 4096), HexDigit(p / 256 % 16), HexDigit(p / 16 % 16);
    assert p / 4096 / 16 == 0 && p / 4096 % 16 == p / 4096;
    DigitsOfQuotient("", p / 4096);
    assert "" + [a] == [a];
    DigitsOfQuotient([a], p / 256);
    assert [a] + [b] == [a, b];
    DigitsOfQuotient([a, b], p / 16);
    assert [a, b] + [c] == [a, b, c];
    DigitsOfQuotient([a, b, c], p);
    assert [a, b, c] + [HexDigit(p % 16)] == Hex4(p);
  }

  /** Decoding a rendered local address gives its port back, for every port and address part. */
  lemma HexPortInvertsRendering(addr: string, p: nat)
    requires 1 <= p <= 65535
    ensures HexPort(addr + ":" + Hex4(p)) == p
  {
    var h := Hex4(p);
    var s := addr + ":" + h;
    LastIndexAfter(addr, h);
    assert s[|addr| + 1..] == h;
    DigitsOfHex4(p);
    assert h[0] == HexDigit(p / 4096);
    assert !HasPrefix(h, "-") && !HasPrefix(h, "+");
    assert ParseInt(h, 16) == Some(p);
  }

  function DecimalDigit(d: nat): (c: char)
    requires d < 10
    ensures Digit(c) == d && c != ':' && c != '+' && c != '-' && c != '*' && !IsSpace(c)
  {
    '0' + d as char
  }

  /** A number as ss prints it. */
  function Decimal(p: nat): (s: string)
    ensures s != "" && forall c | c in s :: c != ':' && c != '+' && c != '-' && c != '*' && !IsSpace(c)
  {
    (if p < 10 then "" else Decimal(p / 10)) + [DecimalDigit(p % 10)]
  }

  lemma {:induction false} DigitsOfDecimal(p: nat)
    ensures Digits(Decimal(p), 10) == Some(p)
  {
    var rest := if p < 10 then "" else Decimal(p / 10);
    if p >= 10 {
      DigitsOfDecimal(p / 10);
    }
    DigitsSnoc(rest, DecimalDigit(p % 10), 10);
  }

  /** A field that ends in a colon and a port gives that port. */
  lemma SsPortInvertsRendering(addr: string, p: nat)
    requires addr != "" && 1 <= p <= 65535
    ensures SsPort(addr + ":" + Decimal(p)) == Some(p)
  {
    var d := Decimal(p);
    var f := addr + ":" + d;
    assert ':' !in d;
    LastIndexAfter(addr, d);
    DecimalParses(p);
    NotWild(addr, d);
    assert f[|addr| + 1..] == d;
    hide *;
    PortOf(f, |addr|, p);
  }

  lemma NotWild(addr: string, d: string)
    requires d != "" && forall c | c in d :: c != '*'
    ensures !HasSuffix(addr + ":" + d, ":*")
  {
    var f := addr + ":" + d;
    assert d[|d| - 1] in d && f[|f| - 1] == d[|d| - 1];
    assert f[|f| - 2..][1] == f[|f| - 1];
  }

  lemma PortOf(f: string, i: nat, p: nat)
    requires 0 < i < |f| - 1 && LastIndex(f, ':') == i && !HasSuffix(f, ":*")
    requires ParseInt(f[i + 1..], 10) == Some(p) && 0 < p < 65536
    ensures SsPort(f) == Some(p)
  {
    hide LastIndex, HasSuffix, ParseInt;
  }

  lemma DecimalParses(p: nat)
    ensures ParseInt(Decimal(p), 10) == Some(p)
  {
    DigitsOfDecimal(p);
    assert Decimal(p)[0] in Decimal(p);
    hide Decimal, Digits;
  }

  lemma NoColonNoPort(f: string)
    requires ':' !in f
    ensures SsPort(f).None? && !HasSuffix(f, ":")
  {
    assert f != "" ==> f[|f| - 1] in f && f[|f| - 1..] == [f[|f| - 1]];
  }

  lemma {:induction false} FirstPortAfter(before: seq<string>, f: string, after: seq<string>)
    requires (forall b | b in before :: ':' !in b) && SsPort(f).Some?
    ensures FirstSsPort(before + [f] + after) == SsPort(f)
  {
    var fs := before + [f] + after;
    if before == [] {
      assert fs[0] == f;
    } else {
      assert fs[0] == before[0] && before[0] in before && fs[1..] == before[1..] + [f] + after;
      NoColonNoPort(before[0]);
      FirstPortAfter(before[1..], f, after);
    }
  }

  /**
   A line of ss names the port of its first address, whatever stands in the columns before it and after it:
   the state may be left out, and the peer is not looked at.
   */
  lemma SsLineNamesItsPort(before: seq<string>, addr: string, p: nat, after: seq<string>)
    requires 1 <= p <= 65535 && IsWord(addr) && forall w | w in before + after :: IsWord(w)
    requires forall b | b in before :: ':' !in b
    ensures LinePort(Spaced(before + [addr + ":" + Decimal(p)] + after)) == Some(p)
  {
    var f := addr + ":" + Decimal(p);
    var fs := before + [f] + after;
    hide Fields, Spaced, SsPort, FirstSsPort, Decimal;
    SsPortInvertsRendering(addr, p);
    FirstPortAfter(before, f, after);
    assert IsWord(f) by { WordOfParts(addr, Decimal(p)); }
    forall w | w in fs ensures IsWord(w) {
      assert w == f || w in before + after;
    }
    FieldsOfSpaced(fs);
    if before != [] {
      assert fs[0] == before[0] && before[0] in before;
      NoColonNoPort(before[0]);
    } else {
      assert fs[0] == f && f[|f| - 1] == Decimal(p)[|Decimal(p)| - 1];
      assert Decimal(p)[|Decimal(p)| - 1] in Decimal(p);
    }
  }

  lemma WordOfParts(a: string, b: string)
    requires IsWord(a) && forall c | c in b :: !IsSpace(c)
    ensures IsWord(a + ":" + b)
  {
    var s := a + ":" + b;
    forall i | 0 <= i < |s| ensures !IsSpace(s[i]) {
      if i > |a| {
        assert s[i] in b;
      }
    }
  }

  lemma Hex4Chars(p: nat)
    requires p < 65536
    ensures forall c | c in Hex4(p) :: !IsSpace(c)
  {
  }

  /** A row of /proc/net/tcp names its local port exactly when its state is 0A, listening. */
  lemma ProcRowNamesItsPort(slot: string, addr: string, remote: string, state: string, rest: seq<string>, p: nat)
    requires 1 <= p <= 65535 && IsWord(addr) && IsWord(remote) && IsWord(state) && ByteLen(state) == 2
    requires IsWord(slot + ":") && forall w | w in rest :: IsWord(w)
    ensures LinePort(Spaced([slot + ":", addr + ":" + Hex4(p), remote, state] + rest)) ==
            if state == "0A" then Some(p) else None
  {
    var fs := [slot + ":", addr + ":" + Hex4(p), remote, state] + rest;
    hide Fields, Spaced, HexPort, Hex4, ByteLen;
    HexPortInvertsRendering(addr, p);
    Hex4Chars(p);
    WordOfParts(addr, Hex4(p));
    forall w | w in fs ensures IsWord(w) {}
    FieldsOfSpaced(fs);
    assert (slot + ":")[|slot|..] == ":";
  }

  // ------------------------------------------------------------- ChoosePort

  /** What ChoosePort picks: the hint when it listens, else the lowest port, else 0. */
  function Chosen(hint: int, listening: seq<int>): int {
    if hint in listening then hint else if listening != [] then listening[0] else 0
  }

  method ChoosePort(hint: int, listening: seq<int>) returns (port: int)
    ensures port == Chosen(hint, listening)
  {
    for i := 0 to |listening|
      invariant hint !in listening[..i]
    {
      if listening[i] == hint {
        return hint;
      }
    }
    return if |listening| > 0 then listening[0] else 0;
  }

  /** On an ascending list of positive ports, the choice is the hint or the minimum, and 0 only when nothing listens. */
  lemma ChosenMeaning(hint: int, listening: seq<int>)
    requires Ascending(listening) && forall p | p in listening :: p > 0
    ensures Chosen(hint, listening) == 0 <==> listening == []
    ensures hint in listening ==> Chosen(hint, listening) == hint
    ensures listening != [] && hint !in listening ==>
      Chosen(hint, listening) in listening && forall p | p in listening :: Chosen(hint, listening) <= p
  {
    if listening != [] {
      assert listening[0] in listening;
    }
  }
}
