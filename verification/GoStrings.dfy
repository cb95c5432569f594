/**
 The parts of Go's `strings` package that the parsers rely on, over sequences of code points:
 splitting into lines, splitting into fields, trimming and substring search.
 */
module GoStrings {
  /** unicode.IsSpace. */
  predicate IsSpace(c: char) {
    var n := c as int;
    || 0x09 <= n <= 0x0D
    || n in {0x20, 0x85, 0xA0, 0x1680, 0x2028, 0x2029, 0x202F, 0x205F, 0x3000}
    || 0x2000 <= n <= 0x200A
  }

  /** The number of bytes of the UTF-8 encoding, which is what Go's `len` counts. */
  function ByteLen(s: string): nat {
    if s == "" then 0
    else
      var n := s[0] as int;
      (if n < 0x80 then 1 else if n < 0x800 then 2 else if n < 0x10000 then 3 else 4) + ByteLen(s[1..])
  }

  predicate OccursAt(s: string, t: string, i: int) {
    0 <= i <= |s| - |t| && s[i..i + |t|] == t
  }

  predicate Contains(s: string, t: string) {
    exists i | 0 <= i <= |s| - |t| :: OccursAt(s, t, i)
  }

  predicate HasPrefix(s: string, t: string) { t <= s }

  predicate HasSuffix(s: string, t: string) { |t| <= |s| && s[|s| - |t|..] == t }

  /** strings.Index: the first occurrence of a non-empty t, or -1. */
  function Index(s: string, t: string): (i: int)
    requires t != ""
    ensures i == -1 || OccursAt(s, t, i)
    ensures forall j :: OccursAt(s, t, j) ==> 0 <= i <= j
  {
    IndexFrom(s, t, 0)
  }

  function IndexFrom(s: string, t: string, from: nat): (i: int)
    requires t != ""
    requires from <= |s|
    ensures i == -1 || OccursAt(s, t, i)
    ensures forall j :: from <= j && OccursAt(s, t, j) ==> from <= i <= j
    decreases |s| - from
  {
    if from + |t| > |s| then -1
    else if OccursAt(s, t, from) then from
    else IndexFrom(s, t, from + 1)
  }

  /** strings.LastIndex for a one-character needle. */
  function LastIndex(s: string, c: char): (i: int)
    ensures -1 <= i < |s|
    ensures i >= 0 ==> s[i] == c
    ensures forall j | i < j < |s| :: s[j] != c
  {
    if s == "" then -1
    else if s[|s| - 1] == c then |s| - 1
    else LastIndex(s[..|s| - 1], c)
  }

  // ---------------------------------------------------------------- lines

  /** strings.Split(s, "\n"). */
  function Lines(s: string): (ls: seq<string>)
    ensures |ls| >= 1
    ensures forall l | l in ls :: '\n' !in l
  {
    if s == "" then [""]
    else
      var rest := Lines(s[1..]);
      if s[0] == '\n' then [""] + rest else [[s[0]] + rest[0]] + rest[1..]
  }

  /** strings.TrimRight(s, "\n"). */
  function TrimNewlines(s: string): string {
    if s != "" && s[|s| - 1] == '\n' then TrimNewlines(s[..|s| - 1]) else s
  }

  /** The elements that satisfy p, in order. */
  function Keep<T>(xs: seq<T>, p: T -> bool): (ys: seq<T>)
    ensures forall y | y in ys :: y in xs && p(y)
  {
    if xs == [] then [] else (if p(xs[0]) then [xs[0]] else []) + Keep(xs[1..], p)
  }

  lemma {:induction false} KeepMembers<T>(xs: seq<T>, p: T -> bool)
    ensures forall x :: x in Keep(xs, p) <==> x in xs && p(x)
  {
    if xs != [] {
      KeepMembers(xs[1..], p);
      assert forall x :: x in xs <==> x == xs[0] || x in xs[1..];
    }
  }

  lemma {:induction false} KeepConcat<T>(xs: seq<T>, ys: seq<T>, p: T -> bool)
    ensures Keep(xs + ys, p) == Keep(xs, p) + Keep(ys, p)
  {
    if xs == [] {
      assert xs + ys == ys;
    } else {
      assert (xs + ys)[1..] == xs[1..] + ys;
      KeepConcat(xs[1..], ys, p);
    }
  }

  /** A newline ends exactly one line: what precedes it and what follows it split independently. */
  lemma {:induction false} LinesConcat(a: string, b: string)
    ensures Lines(a + "\n" + b) == Lines(a) + Lines(b)
  {
    var s := a + "\n" + b;
    if a == "" {
      assert s[1..] == b;
    } else {
      assert s[1..] == a[1..] + "\n" + b;
      LinesConcat(a[1..], b);
    }
  }

  lemma {:induction false} LinesOfLine(l: string)
    requires '\n' !in l
    ensures Lines(l) == [l]
  {
    if l != "" {
      LinesOfLine(l[1..]);
      assert l == [l[0]] + l[1..];
    }
  }

  /** Trimming final newlines drops empty lines only, so a scan that skips empty lines cannot tell. */
  lemma {:induction false} TrimNewlinesKeepsLines(s: string, p: string -> bool)
    requires !p("")
    ensures Keep(Lines(TrimNewlines(s)), p) == Keep(Lines(s), p)
  {
    if s != "" && s[|s| - 1] == '\n' {
      var t := s[..|s| - 1];
      assert s == t + "\n" + "";
      LinesConcat(t, "");
      KeepConcat(Lines(t), [""], p);
      assert Keep([""], p) == [];
      TrimNewlinesKeepsLines(t, p);
    }
  }

  // --------------------------------------------------------------- fields

  /** strings.Fields: the maximal runs of non-space characters. */
  function Fields(s: string): (fs: seq<string>)
    ensures s != "" && !IsSpace(s[0]) ==> fs != []
    ensures forall f | f in fs :: IsWord(f)
  {
    if s == "" then []
    else if IsSpace(s[0]) then Fields(s[1..])
    else if |s| == 1 || IsSpace(s[1]) then [[s[0]]] + Fields(s[1..])
    else
      var rest := Fields(s[1..]);
      assert IsWord(rest[0]);
      [[s[0]] + rest[0]] + rest[1..]
  }

  predicate IsWord(f: string) { f != "" && forall i | 0 <= i < |f| :: !IsSpace(f[i]) }

  function TrimLeft(s: string): string {
    if s != "" && IsSpace(s[0]) then TrimLeft(s[1..]) else s
  }

  function TrimRight(s: string): string {
    if s != "" && IsSpace(s[|s| - 1]) then TrimRight(s[..|s| - 1]) else s
  }

  /** strings.TrimSpace. */
  function TrimSpace(s: string): string { TrimRight(TrimLeft(s)) }

  lemma {:induction false} FieldsTrimLeft(s: string)
    ensures Fields(TrimLeft(s)) == Fields(s)
  {
    if s != "" && IsSpace(s[0]) {
      FieldsTrimLeft(s[1..]);
    }
  }

  lemma {:induction false} FieldsSnocSpace(s: string, c: char)
    requires IsSpace(c)
    ensures Fields(s + [c]) == Fields(s)
  {
    if s == "" {
      assert (s + [c])[1..] == "";
    } else {
      assert (s + [c])[1..] == s[1..] + [c];
      FieldsSnocSpace(s[1..], c);
      if |s| == 1 {
        assert s[1..] == "";
      }
    }
  }

  lemma {:induction false} FieldsTrimRight(s: string)
    ensures Fields(TrimRight(s)) == Fields(s)
  {
    if s != "" && IsSpace(s[|s| - 1]) {
      var t := s[..|s| - 1];
      assert s == t + [s[|s| - 1]];
      FieldsSnocSpace(t, s[|s| - 1]);
      FieldsTrimRight(t);
    }
  }

  /** Surrounding white space never changes the fields. */
  lemma FieldsTrimSpace(s: string)
    ensures Fields(TrimSpace(s)) == Fields(s)
  {
    FieldsTrimLeft(s);
    FieldsTrimRight(TrimLeft(s));
  }

  /** Words written with single spaces between them. */
  function Spaced(ws: seq<string>): string {
    if ws == [] then "" else if |ws| == 1 then ws[0] else ws[0] + " " + Spaced(ws[1..])
  }

  lemma {:induction false} FieldsOfWord(w: string, rest: string)
    requires IsWord(w)
    requires rest == "" || IsSpace(rest[0])
    ensures Fields(w + rest) == [w] + Fields(rest)
  {
    var s := w + rest;
    assert s[1..] == w[1..] + rest;
    if |w| == 1 {
      assert w[1..] + rest == rest;
      assert w == [w[0]];
    } else {
      assert s[1] == w[1];
      FieldsOfWord(w[1..], rest);
      assert w == [w[0]] + w[1..];
    }
  }

  /** Fields inverts Spaced. */
  lemma {:induction false} FieldsOfSpaced(ws: seq<string>)
    requires forall w | w in ws :: IsWord(w)
    ensures Fields(Spaced(ws)) == ws
  {
    if |ws| == 1 {
      FieldsOfWord(ws[0], "");
      assert ws[0] + "" == ws[0];
    } else if |ws| > 1 {
      var tail := Spaced(ws[1..]);
      assert ws[0] + " " + tail == ws[0] + (" " + tail);
      FieldsOfWord(ws[0], " " + tail);
      assert (" " + tail)[1..] == tail;
      FieldsOfSpaced(ws[1..]);
      assert ws == [ws[0]] + ws[1..];
    }
  }
}
