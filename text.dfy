/**
 * Decimal formatting (std::to_string) and the part of std::istringstream the
 * source relies on: `>> int` and `>> std::string` on a character sequence.
 */
module Text {
  import opened Wrappers

  predicate IsDigit(c: char) { '0' <= c <= '9' }

  /** The characters std::isspace accepts in the "C" locale. */
  predicate IsSpace(c: char) { c == ' ' || c == '\t' || c == '\n' || c == '\r' || c == '\U{B}' || c == '\U{C}' }

  predicate AllDigits(s: string) { forall i :: 0 <= i < |s| ==> IsDigit(s[i]) }

  function DigitChar(d: nat): (c: char)
    requires d < 10
    ensures IsDigit(c) && c as int - '0' as int == d
  {
    ('0' as int + d) as char
  }

  /** std::to_string on a non-negative value. */
  function NatToString(n: nat): string
  {
    if n < 10 then [DigitChar(n)] else NatToString(n / 10) + [DigitChar(n % 10)]
  }

  /** std::to_string writes at least one digit, only digits, and no leading zero. */
  lemma {:induction false} NatToStringDigits(n: nat)
    ensures var s := NatToString(n); |s| >= 1 && AllDigits(s) && (s[0] == '0' ==> n == 0)
  {
    if n >= 10 {
      NatToStringDigits(n / 10);
    }
  }

  /** std::to_string on a signed value. */
  function IntToString(i: int): (s: string)
    ensures |s| >= 1
    ensures i < 0 <==> s[0] == '-'
  {
    if i < 0 then NatToStringDigits(-i); "-" + NatToString(-i) else NatToStringDigits(i); NatToString(i)
  }

  /** The value of a run of decimal digits, most significant first. */
  function DigitsValue(s: string): (v: nat)
    requires AllDigits(s)
  {
    if s == [] then 0 else DigitsValue(s[..|s| - 1]) * 10 + (s[|s| - 1] as int - '0' as int)
  }

  lemma {:induction false} DigitsValueOfNatToString(n: nat)
    ensures AllDigits(NatToString(n)) && DigitsValue(NatToString(n)) == n
  {
    NatToStringDigits(n);
    var s := NatToString(n);
    if n >= 10 {
      DigitsValueOfNatToString(n / 10);
      assert s[..|s| - 1] == NatToString(n / 10);
    }
  }

  /** Number of leading decimal digits of s. */
  function LeadingDigits(s: string): (k: nat)
    ensures k <= |s| && AllDigits(s[..k])
    ensures k < |s| ==> !IsDigit(s[k])
  {
    if s != [] && IsDigit(s[0]) then
      var k := 1 + LeadingDigits(s[1..]);
      assert s[..k] == [s[0]] + s[1..][..k - 1];
      k
    else 0
  }

  lemma {:induction false} LeadingDigitsOfDigitsThenRest(d: string, rest: string)
    requires AllDigits(d)
    requires rest == [] || !IsDigit(rest[0])
    ensures LeadingDigits(d + rest) == |d|
  {
    if d != [] {
      assert (d + rest)[1..] == d[1..] + rest;
      LeadingDigitsOfDigitsThenRest(d[1..], rest);
    }
  }

  function SkipSpaces(s: string): (r: string)
    ensures |r| <= |s| && r == s[|s| - |r|..]
    ensures r == [] || !IsSpace(r[0])
  {
    if s != [] && IsSpace(s[0]) then SkipSpaces(s[1..]) else s
  }

  /** A maximal run of at least one digit at the start of t, and what follows it. */
  function ReadDigits(t: string): (r: Option<(nat, string)>)
    ensures r.Some? ==> |r.value.1| < |t|
  {
    var k := LeadingDigits(t);
    if k == 0 then None else Some((DigitsValue(t[..k]), t[k..]))
  }

  /**
   * `stream >> n` for an int n: skips white space, reads an optional sign and
   * at least one digit, and leaves the rest of the input unread. None is the
   * stream's fail state. Values beyond the range of int are not modelled.
   */
  function ReadInt(s: string): (r: Option<(int, string)>)
    ensures r.Some? ==> |r.value.1| < |s|
  {
    ReadSigned(SkipSpaces(s))
  }

  /** The sign and digits of `stream >> n`, once the blanks before them are skipped. */
  function ReadSigned(t: string): (r: Option<(int, string)>)
    ensures r.Some? ==> |r.value.1| < |t|
  {
    if t != [] && (t[0] == '-' || t[0] == '+') then
      match ReadDigits(t[1..])
      case None => None
      case Some((v, rest)) =>
        var n: int := if t[0] == '-' then -(v as int) else v;
        Some((n, rest))
    else
      match ReadDigits(t)
      case None => None
      case Some((v, rest)) => Some((v as int, rest))
  }

  lemma ReadDigitsOfNatToString(n: nat, rest: string)
    requires rest == [] || !IsDigit(rest[0])
    ensures ReadDigits(NatToString(n) + rest) == Some((n, rest))
  {
    var d := NatToString(n);
    NatToStringDigits(n);
    LeadingDigitsOfDigitsThenRest(d, rest);
    DigitsValueOfNatToString(n);
    assert (d + rest)[..|d|] == d;
    assert (d + rest)[|d|..] == rest;
  }

  /** `stream >> word` for a std::string word: the next run of non-blank characters. */
  function ReadWord(s: string): (r: Option<(string, string)>)
    ensures r.Some? ==> |r.value.0| >= 1 && |r.value.1| < |s|
    ensures r.Some? ==> forall i :: 0 <= i < |r.value.0| ==> !IsSpace(r.value.0[i])
    ensures r.None? <==> SkipSpaces(s) == []
  {
    var t := SkipSpaces(s);
    if t == [] then None else
      var k := WordLength(t);
      Some((t[..k], t[k..]))
  }

  function WordLength(t: string): (k: nat)
    ensures k <= |t|
    ensures forall i :: 0 <= i < k ==> !IsSpace(t[i])
    ensures k < |t| ==> IsSpace(t[k])
    ensures t != [] && !IsSpace(t[0]) ==> k >= 1
  {
    if t != [] && !IsSpace(t[0]) then 1 + WordLength(t[1..]) else 0
  }

  /** Unsigned digits read back as a value. */
  lemma ReadSignedOfNatToString(n: nat, rest: string)
    requires rest == [] || !IsDigit(rest[0])
    ensures ReadSigned(NatToString(n) + rest) == Some((n as int, rest))
  {
    var d := NatToString(n);
    NatToStringDigits(n);
    assert IsDigit(d[0]);
    assert (d + rest)[0] == d[0];
    ReadDigitsOfNatToString(n, rest);
  }

  /** A minus sign and digits read back as the negated value. */
  lemma ReadSignedOfNegated(n: nat, rest: string)
    requires rest == [] || !IsDigit(rest[0])
    ensures ReadSigned("-" + NatToString(n) + rest) == Some((-(n as int), rest))
  {
    var s := "-" + NatToString(n) + rest;
    assert s[0] == '-';
    assert s[1..] == NatToString(n) + rest;
    ReadDigitsOfNatToString(n, rest);
  }

  /** `stream >> n` on text that starts with no blank reads its sign and digits at once. */
  lemma ReadIntUnspaced(s: string)
    requires s != [] && !IsSpace(s[0])
    ensures ReadInt(s) == ReadSigned(s)
  {
  }

  /** Reading back what IntToString wrote, followed by a separator or the end. */
  lemma ReadIntOfIntToString(i: int, rest: string)
    requires rest == [] || IsSpace(rest[0]) || rest[0] == ','
    ensures ReadInt(IntToString(i) + rest) == Some((i, rest))
  {
    if i < 0 {
      var s := "-" + NatToString(-i) + rest;
      assert IntToString(i) + rest == s;
      ReadIntUnspaced(s);
      ReadSignedOfNegated(-i, rest);
    } else {
      var s := NatToString(i) + rest;
      assert IntToString(i) + rest == s;
      NatToStringDigits(i);
      assert s[0] == NatToString(i)[0];
      ReadIntUnspaced(s);
      ReadSignedOfNatToString(i, rest);
    }
  }

  /** `stream >> n` skips a leading space. */
  lemma ReadIntAfterSpace(t: string)
    ensures ReadInt(" " + t) == ReadInt(t)
  {
    var s := " " + t;
    assert s[1..] == t;
    assert SkipSpaces(s) == SkipSpaces(t);
  }

  /** Reading a non-negative value written after a space. */
  lemma ReadIntOfSpacedNat(n: nat, rest: string)
    requires rest == [] || IsSpace(rest[0]) || rest[0] == ','
    ensures ReadInt(" " + NatToString(n) + rest) == Some((n, rest))
  {
    var t := IntToString(n) + rest;
    assert IntToString(n) == NatToString(n);
    assert " " + NatToString(n) + rest == " " + t;
    ReadIntAfterSpace(t);
    ReadIntOfIntToString(n, rest);
  }

  /** Every occurrence of c removed, the other characters kept in order. */
  function RemoveAll(s: string, c: char): (r: string)
    ensures c !in r
    ensures |r| <= |s|
    ensures forall x :: x != c ==> multiset(r)[x] == multiset(s)[x]
  {
    if s == [] then []
    else
      assert s == [s[0]] + s[1..];
      (if s[0] == c then [] else [s[0]]) + RemoveAll(s[1..], c)
  }

  /** Index of the first occurrence of c in s, or None. */
  function Find(s: string, c: char): (r: Option<nat>)
    ensures r.Some? ==> r.value < |s| && s[r.value] == c && c !in s[..r.value]
    ensures r.None? <==> c !in s
  {
    if s == [] then None
    else if s[0] == c then Some(0)
    else
      match Find(s[1..], c)
      case None => None
      case Some(k) =>
        assert s[..k + 1] == [s[0]] + s[1..][..k];
        Some(k + 1)
  }

  function ShiftIndex(r: Option<nat>, n: nat): Option<nat>
  {
    match r
    case None => None
    case Some(k) => Some(n + k)
  }

  /** Searching past a prefix that does not hold c. */
  lemma {:induction false} FindSkips(a: string, b: string, c: char)
    requires c !in a
    ensures Find(a + b, c) == ShiftIndex(Find(b, c), |a|)
  {
    if a != [] {
      var s := a + b;
      assert s[0] == a[0] && s[0] != c;
      assert s[1..] == a[1..] + b;
      FindSkips(a[1..], b, c);
      assert Find(s, c) == ShiftIndex(Find(s[1..], c), 1);
    } else {
      assert a + b == b;
    }
  }

  /** Drops one trailing '\n', if there is one. */
  function DropTrailingNewline(s: string): (r: string)
    ensures if s != [] && s[|s| - 1] == '\n' then s == r + "\n" else r == s
  {
    if s != [] && s[|s| - 1] == '\n' then s[..|s| - 1] else s
  }

  /** Concatenation of parts, each followed by sep. */
  function Terminated(parts: seq<string>, sep: string): string
  {
    if parts == [] then "" else Terminated(parts[..|parts| - 1], sep) + parts[|parts| - 1] + sep
  }

  lemma {:induction false} TerminatedAppend(a: seq<string>, b: seq<string>, sep: string)
    ensures Terminated(a + b, sep) == Terminated(a, sep) + Terminated(b, sep)
  {
    if b == [] {
      assert a + b == a;
    } else {
      var n := |b| - 1;
      assert (a + b)[..|a + b| - 1] == a + b[..n];
      TerminatedAppend(a, b[..n], sep);
    }
  }

  /** Concatenation of parts with sep between each two consecutive ones. */
  function Join(parts: seq<string>, sep: string): string
  {
    if parts == [] then "" else Terminated(parts[..|parts| - 1], sep) + parts[|parts| - 1]
  }

  lemma JoinOne(w: string, sep: string)
    ensures Join([w], sep) == w
  {
    assert [w][..0] == [];
  }

  /** One more part of ts, terminated or joined. */
  lemma TerminatedPrefix(ts: seq<string>, c: nat, sep: string)
    requires c < |ts|
    ensures Terminated(ts[..c + 1], sep) == Terminated(ts[..c], sep) + ts[c] + sep
    ensures Join(ts[..c + 1], sep) == Terminated(ts[..c], sep) + ts[c]
  {
    assert ts[..c + 1][..c] == ts[..c];
  }

  /** Joining a + b when b is not empty: every part of a is followed by the separator. */
  lemma JoinAppend(a: seq<string>, b: seq<string>, sep: string)
    requires b != []
    ensures Join(a + b, sep) == Terminated(a, sep) + Join(b, sep)
  {
    var k := |b| - 1;
    var ab := a + b;
    var last := b[k];
    assert ab[..|ab| - 1] == a + b[..k] && ab[|ab| - 1] == last;
    JoinLast(ab, sep);
    JoinLast(b, sep);
    TerminatedAppend(a, b[..k], sep);
    StringAssoc(Terminated(a, sep), Terminated(b[..k], sep), last);
  }

  /** A non-empty join is its terminated front followed by its last part. */
  lemma JoinLast(parts: seq<string>, sep: string)
    requires parts != []
    ensures Join(parts, sep) == Terminated(parts[..|parts| - 1], sep) + parts[|parts| - 1]
  {
  }

  lemma StringAssoc(a: string, b: string, c: string)
    ensures a + b + c == a + (b + c)
  {
  }

  lemma StringAssoc4(a: string, b: string, c: string, d: string)
    ensures a + b + c + d == a + (b + c + d)
  {
  }

  /** Join read from the front: the first part, the separator, and the join of the rest. */
  lemma JoinCons(parts: seq<string>, sep: string)
    requires |parts| >= 2
    ensures Join(parts, sep) == parts[0] + sep + Join(parts[1..], sep)
  {
    var n := |parts| - 1;
    var rest := parts[1..];
    var r := rest[..n - 1];
    assert parts[..n] == [parts[0]] + r;
    TerminatedAppend([parts[0]], r, sep);
    assert [parts[0]][..0] == [];
    var t := Terminated(r, sep);
    assert Terminated(parts[..n], sep) == parts[0] + sep + t;
    assert Join(rest, sep) == t + parts[n];
    assert parts[0] + sep + t + parts[n] == parts[0] + sep + (t + parts[n]);
  }

  /** Appending one part to a join: the separator goes in front of it unless it is the first part. */
  lemma JoinSnoc(parts: seq<string>, p: string, sep: string)
    ensures Join(parts + [p], sep) == Join(parts, sep) + (if parts == [] then p else sep + p)
  {
    assert (parts + [p])[..|parts|] == parts;
    if parts != [] {
      var n := |parts| - 1;
      assert parts[..n] + [parts[n]] == parts;
    }
  }
  /** Each value written after a space, in order: " x0 x1 ... xn". */
  function NumbersText(xs: seq<int>): (r: string)
    ensures xs != [] ==> |r| > 0 && r[0] == ' '
  {
    if xs == [] then "" else NumbersText(xs[..|xs| - 1]) + " " + IntToString(xs[|xs| - 1])
  }

  /** One more value written at the end. */
  lemma NumbersTextPrefix(xs: seq<int>, k: nat)
    requires k < |xs|
    ensures NumbersText(xs[..k + 1]) == NumbersText(xs[..k]) + " " + IntToString(xs[k])
  {
    assert xs[..k + 1][..k] == xs[..k];
  }

  /** The same text read from the front: the first value after its space, then the rest. */
  lemma {:induction false} NumbersTextCons(x: int, xs: seq<int>)
    ensures NumbersText([x] + xs) == " " + IntToString(x) + NumbersText(xs)
  {
    var ys := [x] + xs;
    if xs == [] {
      assert ys[..0] == [];
    } else {
      var n := |xs| - 1;
      assert ys[..|ys| - 1] == [x] + xs[..n];
      assert ys[|ys| - 1] == xs[n];
      var a, b, c := " " + IntToString(x), NumbersText(xs[..n]), " " + IntToString(xs[n]);
      assert NumbersText(ys) == NumbersText([x] + xs[..n]) + c;
      NumbersTextCons(x, xs[..n]);
      assert NumbersText(xs) == b + c;
      StringAssoc(a, b, c);
    }
  }

  /** Two values and then a list, written in one run. */
  lemma NumbersTextTwo(a: int, b: int, xs: seq<int>)
    ensures NumbersText([a, b] + xs) == " " + IntToString(a) + " " + IntToString(b) + NumbersText(xs)
  {
    assert [a, b] + xs == [a] + ([b] + xs);
    NumbersTextCons(a, [b] + xs);
    NumbersTextCons(b, xs);
  }

  /** Eight pieces, the middle five and the last six grouped. */
  lemma Gather(p: string, v: string, s1: string, a: string, s2: string, b: string, n: string, e: string)
    ensures p + v + s1 + a + s2 + b + n + e == p + (v + (s1 + a + s2 + b + n) + e)
  {
  }

  /** Nine pieces, the middle six grouped (the last two of them as one) and the last eight grouped. */
  lemma GatherNine(p: string, v: string, s1: string, a: string, s2: string, b: string, s3: string, c: string, e: string)
    ensures p + v + s1 + a + s2 + b + s3 + c + e == p + (v + (s1 + a + s2 + b + (s3 + c)) + e)
  {
  }

  /** A word, a space and five more pieces: the space starts the group of the next four. */
  lemma GatherWord(p: string, a: string, s2: string, b: string, n: string, e: string)
    ensures (p + " ") + a + s2 + b + n + e == p + ((" " + a + s2 + b + n) + e)
  {
  }

  /** Seven pieces: everything after the first grouped, and everything after the second. */
  lemma GatherTail(h: string, c: string, s1: string, l: string, s2: string, t: string, e: string)
    ensures h + c + s1 + l + s2 + t + e == h + (c + (s1 + l + s2 + t + e))
  {
  }

  /** A word, a space and three more pieces: the space starts the group of the next three. */
  lemma GatherPair(p: string, a: string, s2: string, b: string, e: string)
    ensures (p + " ") + a + s2 + b + e == p + ((" " + a + s2 + b) + e)
  {
  }

  /** Two numbers, each with one space before it. */
  lemma NumbersTextPair(a: int, b: int)
    ensures NumbersText([a, b]) == " " + IntToString(a) + " " + IntToString(b)
  {
    NumbersTextPrefix([a, b], 1);
    assert [a, b][..1] == [a];
    NumbersTextOne(a);
  }

  /** One number is written with one space before it. */
  lemma NumbersTextOne(c: int)
    ensures NumbersText([c]) == " " + IntToString(c)
  {
    assert [c][..0] == [];
  }

  /** A number before a list that starts with two more. */
  lemma ConsThree(a: int, b: int, c: int, xs: seq<int>)
    ensures [a] + ([b, c] + xs) == [a, b, c] + xs
  {
  }

  /** A number before three more. */
  lemma ConsFour(a: int, b: int, c: int, d: int)
    ensures [a] + ([b, c] + [d]) == [a, b, c, d]
  {
  }

  /** n successive `stream >> int` reads; None as soon as one fails. */
  function ReadInts(s: string, n: nat): (r: Option<(seq<int>, string)>)
    ensures r.Some? ==> |r.value.0| == n
  {
    if n == 0 then Some(([], s))
    else
      match ReadInt(s)
      case None => None
      case Some((v, rest)) =>
        match ReadInts(rest, n - 1)
        case None => None
        case Some((vs, rest')) => Some(([v] + vs, rest'))
  }

  /** One read followed by n more. */
  lemma ReadIntsStep(s: string, v: int, tail: string, n: nat, vs: seq<int>, rest: string)
    requires ReadInt(s) == Some((v, tail)) && ReadInts(tail, n) == Some((vs, rest))
    ensures ReadInts(s, n + 1) == Some(([v] + vs, rest))
  {
  }

  lemma Regroup4(a: string, b: string, c: string, d: string)
    ensures a + b + c + d == a + (b + (c + d))
  {
  }

  lemma HeadTail<T>(xs: seq<T>)
    requires xs != []
    ensures [xs[0]] + xs[1..] == xs
  {
  }

  /** A non-empty run of values is a space, the first value, and the run of the rest. */
  lemma NumbersTextSplit(xs: seq<int>, rest: string)
    requires xs != []
    ensures NumbersText(xs) + rest == " " + (IntToString(xs[0]) + (NumbersText(xs[1..]) + rest))
  {
    NumbersTextCons(xs[0], xs[1..]);
    HeadTail(xs);
    Regroup4(" ", IntToString(xs[0]), NumbersText(xs[1..]), rest);
  }

  /** Reading back a run of values written by NumbersText, followed by a separator or the end. */
  lemma {:induction false} ReadIntsOfNumbers(xs: seq<int>, rest: string)
    requires rest == [] || IsSpace(rest[0]) || rest[0] == ','
    ensures ReadInts(NumbersText(xs) + rest, |xs|) == Some((xs, rest))
  {
    if xs == [] {
      assert NumbersText(xs) + rest == rest;
    } else {
      var v := IntToString(xs[0]);
      var tail := NumbersText(xs[1..]) + rest;
      var s := NumbersText(xs) + rest;
      NumbersTextSplit(xs, rest);
      assert s == " " + (v + tail);
      ReadIntAfterSpace(v + tail);
      NumbersThenSeparator(xs[1..], rest);
      ReadIntOfIntToString(xs[0], tail);
      assert ReadInt(s) == Some((xs[0], tail));
      ReadIntsOfNumbers(xs[1..], rest);
      ReadIntsStep(s, xs[0], tail, |xs| - 1, xs[1..], rest);
      HeadTail(xs);
    }
  }

  /** A run of values followed by a separator or the end starts with a separator or is empty. */
  lemma NumbersThenSeparator(xs: seq<int>, rest: string)
    requires rest == [] || IsSpace(rest[0]) || rest[0] == ','
    ensures var t := NumbersText(xs) + rest; t == [] || IsSpace(t[0]) || t[0] == ','
  {
    if xs == [] {
      assert NumbersText(xs) + rest == rest;
    } else {
      assert (NumbersText(xs) + rest)[0] == ' ';
    }
  }

  /** A value written without a space in front, then more values, then "\n", read back. */
  lemma ReadIntsAfterFirst(x: int, xs: seq<int>)
    ensures ReadInts(IntToString(x) + NumbersText(xs) + "\n", 1 + |xs|) == Some(([x] + xs, "\n"))
  {
    var v, n := IntToString(x), NumbersText(xs);
    var t := v + (n + "\n");
    NumbersTextCons(x, xs);
    Regroup4(" ", v, n, "\n");
    assert NumbersText([x] + xs) + "\n" == " " + t;
    ReadIntsOfNumbers([x] + xs, "\n");
    ReadIntsSpace(t, |xs|);
    StringAssoc(v, n, "\n");
  }

  /** A leading space changes no read. */
  lemma ReadIntsSpace(t: string, n: nat)
    ensures ReadInts(" " + t, n + 1) == ReadInts(t, n + 1)
  {
    ReadIntAfterSpace(t);
  }

  /** Removing c from a concatenation removes it from each part. */
  lemma {:induction false} RemoveAllAppend(a: string, b: string, c: char)
    ensures RemoveAll(a + b, c) == RemoveAll(a, c) + RemoveAll(b, c)
  {
    if a != [] {
      assert (a + b)[0] == a[0] && (a + b)[1..] == a[1..] + b;
      RemoveAllAppend(a[1..], b, c);
    } else {
      assert a + b == b;
    }
  }

  /** Text without c is left as it is. */
  lemma {:induction false} RemoveAllAbsent(s: string, c: char)
    requires c !in s
    ensures RemoveAll(s, c) == s
  {
    if s != [] {
      RemoveAllAbsent(s[1..], c);
    }
  }

  /** std::to_string writes only a sign and digits. */
  lemma IntToStringWithout(i: int, c: char)
    requires c != '-' && !IsDigit(c)
    ensures c !in IntToString(i)
  {
    var n: nat := if i < 0 then -i else i;
    NatToStringDigits(n);
    assert c !in NatToString(n);
    if i < 0 {
      assert IntToString(i) == "-" + NatToString(n);
    }
  }

  /** Erasing one occurrence of c does not change what removing every c leaves. */
  lemma RemoveAllErase(s: string, pos: nat, c: char)
    requires pos < |s| && s[pos] == c
    ensures RemoveAll(s[..pos] + s[pos + 1..], c) == RemoveAll(s, c)
  {
    var a, b := s[..pos], s[pos + 1..];
    assert s == a + ([c] + b);
    RemoveAllAppend(a, [c] + b, c);
    RemoveAllAppend([c], b, c);
    assert RemoveAll([c], c) == [];
    RemoveAllAppend(a, b, c);
    assert [] + RemoveAll(b, c) == RemoveAll(b, c);
  }

  /** The loop that erases the first c and searches again until none is left. */
  method EraseAll(input: string, c: char) returns (s: string)
    ensures s == RemoveAll(input, c)
  {
    s := input;
    var pos := Find(s, c);
    while pos.Some?
      invariant RemoveAll(s, c) == RemoveAll(input, c)
      invariant pos == Find(s, c)
      decreases |s|
    {
      RemoveAllErase(s, pos.value, c);
      s := s[..pos.value] + s[pos.value + 1..];
      pos := Find(s, c);
    }
    RemoveAllAbsent(s, c);
  }

  /** A terminated list is the joined list followed by one more separator. */
  lemma TerminatedJoin(ts: seq<string>, sep: string)
    requires ts != []
    ensures Terminated(ts, sep) == Join(ts, sep) + sep
  {
  }

  /** The pieces of s between occurrences of c, the way a reader splitting on c sees them. */
  function Split(s: string, c: char): (parts: seq<string>)
    ensures |parts| >= 1
    decreases |s|
  {
    match Find(s, c)
    case None => [s]
    case Some(k) => [s[..k]] + Split(s[k + 1..], c)
  }

  /** Splitting at the first c: the c-free piece in front, then the pieces of what follows it. */
  lemma SplitBehind(a: string, c: char, b: string)
    requires c !in a
    ensures Split(a + [c] + b, c) == [a] + Split(b, c)
  {
    var s := a + [c] + b;
    assert s[..|a|] == a && s[|a|] == c && s[|a| + 1..] == b;
    assert Find(s, c) == Some(|a|);
  }

  /** Splitting a join on its one-character separator gives the parts back, when no part holds it. */
  lemma {:induction false} SplitJoin(parts: seq<string>, c: char)
    requires parts != [] && forall k :: 0 <= k < |parts| ==> c !in parts[k]
    ensures Split(Join(parts, [c]), c) == parts
  {
    if |parts| == 1 {
      assert Join(parts, [c]) == parts[0];
      assert Find(parts[0], c) == None;
    } else {
      var first, others := parts[0], parts[1..];
      JoinCons(parts, [c]);
      var rest := Join(others, [c]);
      SplitBehind(first, c, rest);
      SplitJoin(others, c);
      assert parts == [first] + others;
    }
  }

  /** Three pieces appended behind a fixed front. */
  lemma Behind(a: string, b: string, c: string, d: string)
    ensures a + b + c + d == a + (b + c + d)
  {
  }

  /** A value written without a space in front, then more values, then text that starts with a blank (or nothing), read back. */
  lemma ReadIntsLine(x: int, xs: seq<int>, tail: string)
    requires tail == [] || IsSpace(tail[0])
    ensures ReadInts(IntToString(x) + NumbersText(xs) + tail, 1 + |xs|) == Some(([x] + xs, tail))
  {
    var v, n := IntToString(x), NumbersText(xs);
    var t := v + (n + tail);
    NumbersTextCons(x, xs);
    Regroup4(" ", v, n, tail);
    assert NumbersText([x] + xs) + tail == " " + t;
    ReadIntsOfNumbers([x] + xs, tail);
    ReadIntsSpace(t, |xs|);
    StringAssoc(v, n, tail);
  }

  /** `while (stream >> n)`: every value up to the first read that fails, in order. */
  function ReadAll(s: string): (vs: seq<int>)
    decreases |s|
  {
    match ReadInt(s)
    case None => []
    case Some((v, rest)) => [v] + ReadAll(rest)
  }

  /** Reading every value of a run written by NumbersText gives the run back. */
  lemma {:induction false} ReadAllOfNumbers(xs: seq<int>)
    ensures ReadAll(NumbersText(xs)) == xs
  {
    if xs == [] {
      assert ReadInt("") == None;
    } else {
      var v := IntToString(xs[0]);
      var tail := NumbersText(xs[1..]);
      NumbersTextSplit(xs, "");
      assert NumbersText(xs) + "" == NumbersText(xs) && tail + "" == tail;
      ReadIntAfterSpace(v + tail);
      ReadIntOfIntToString(xs[0], tail);
      ReadAllOfNumbers(xs[1..]);
      HeadTail(xs);
    }
  }

  /** Runs of values written one after the other are the run of all of them. */
  lemma {:induction false} NumbersTextAppend(a: seq<int>, b: seq<int>)
    ensures NumbersText(a + b) == NumbersText(a) + NumbersText(b)
    decreases |b|
  {
    if b == [] {
      assert a + b == a;
    } else {
      var n := |b| - 1;
      var init := b[..n];
      var last := IntToString(b[n]);
      assert (a + b)[..|a + b| - 1] == a + init;
      assert (a + b)[|a + b| - 1] == b[n];
      var na, ni := NumbersText(a), NumbersText(init);
      calc {
        NumbersText(a + b);
        NumbersText(a + init) + " " + last;
        { NumbersTextAppend(a, init); }
        na + ni + " " + last;
        { StringAssoc4(na, ni, " ", last); }
        na + (ni + " " + last);
      }
    }
  }

  /** A run of values holds no character other than blanks, signs and digits. */
  lemma {:induction false} NumbersTextWithout(xs: seq<int>, c: char)
    requires c != ' ' && c != '-' && !IsDigit(c)
    ensures c !in NumbersText(xs)
  {
    if xs != [] {
      NumbersTextWithout(xs[..|xs| - 1], c);
      IntToStringWithout(xs[|xs| - 1], c);
    }
  }

  /** A word with no blank in it, then a blank or nothing: the word's length is the whole word. */
  lemma {:induction false} WordLengthOfWord(w: string, tail: string)
    requires forall i :: 0 <= i < |w| ==> !IsSpace(w[i])
    requires tail == [] || IsSpace(tail[0])
    ensures WordLength(w + tail) == |w|
  {
    if w != [] {
      assert (w + tail)[1..] == w[1..] + tail;
      WordLengthOfWord(w[1..], tail);
    } else {
      assert w + tail == tail;
    }
  }

  /** `stream >> word` after one blank reads the whole word and stops at the blank behind it. */
  lemma ReadWordOfWord(w: string, tail: string)
    requires w != [] && forall i :: 0 <= i < |w| ==> !IsSpace(w[i])
    requires tail == [] || IsSpace(tail[0])
    ensures ReadWord(" " + w + tail) == Some((w, tail))
  {
    var s := " " + w + tail;
    assert s[1..] == w + tail;
    assert SkipSpaces(s) == w + tail;
    WordLengthOfWord(w, tail);
    assert (w + tail)[..|w|] == w && (w + tail)[|w|..] == tail;
  }
}
