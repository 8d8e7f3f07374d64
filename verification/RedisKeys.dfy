// Store keys of SNMP objects: the printer, its parser, and the order of the printed keys.

module RedisKeys {
  import opened Events

  const WIDTH := 10

  // ----- Python's string operations -----

  /** str.split with a one-character separator: always at least one part. */
  function Split(s: string, sep: char): (parts: seq<string>)
    ensures |parts| > 0
  {
    if s == "" then [""]
    else if s[0] == sep then [""] + Split(s[1..], sep)
    else
      var rest := Split(s[1..], sep);
      [[s[0]] + rest[0]] + rest[1..]
  }

  /** str.replace(" ", ""). */
  function WithoutSpaces(s: string): string {
    if s == "" then ""
    else if s[0] == ' ' then WithoutSpaces(s[1..])
    else [s[0]] + WithoutSpaces(s[1..])
  }

  function Repeat(c: char, n: nat): (s: string)
    ensures |s| == n && forall i :: 0 <= i < n ==> s[i] == c
  {
    seq(n, i => c)
  }

  /** str.rjust, and str.zfill on a string without a sign. */
  function RightJustified(s: string, width: nat, fill: char): string {
    if |s| >= width then s else Repeat(fill, width - |s|) + s
  }

  predicate IsDigit(c: char) {
    '0' <= c <= '9'
  }

  predicate AllDigits(s: string) {
    forall i :: 0 <= i < |s| ==> IsDigit(s[i])
  }

  /** int on a string of digits. */
  function Value(s: string): nat
    requires AllDigits(s)
  {
    if s == "" then 0 else 10 * Value(s[..|s| - 1]) + (s[|s| - 1] as int - '0' as int)
  }

  // ----- The printer and the parser -----

  function Cells(parts: seq<string>): string {
    if parts == [] then "" else RightJustified(parts[0] + ".", WIDTH + 1, ' ') + Cells(parts[1..])
  }

  function Body(parts: seq<string>): string
    requires |parts| > 0
  {
    Cells(parts[..|parts| - 1]) + RightJustified(parts[|parts| - 1], WIDTH, ' ')
  }

  function FormatKey(key: string, keyFormatted: bool): string {
    if keyFormatted then key else RightJustified(key, WIDTH, '0')
  }

  function Format(key: string, oid: string, keyFormatted: bool): string {
    FormatKey(key, keyFormatted) + "-" + Body(Split(oid, '.'))
  }

  /** The parser: unpacking fails unless the dash occurs exactly once. */
  function Parse(data: string): Option<(int, string)> {
    var parts := Split(data, '-');
    if |parts| != 2 || parts[0] == "" || !AllDigits(parts[0]) then None
    else Some((Value(parts[0]), WithoutSpaces(parts[1])))
  }

  lemma {:induction false} CellsAppend(parts: seq<string>, last: string)
    ensures Cells(parts + [last]) == Cells(parts) + RightJustified(last + ".", WIDTH + 1, ' ')
  {
    if parts == [] {
      assert [last][1..] == [];
      assert Cells([last]) == RightJustified(last + ".", WIDTH + 1, ' ') + Cells([]);
    } else {
      CellsAppend(parts[1..], last);
      assert (parts + [last])[1..] == parts[1..] + [last];
    }
  }

  method FormatAsRedisKey(key: string, oid: string, keyFormatted: bool) returns (keyAndOid: string)
    ensures keyAndOid == Format(key, oid, keyFormatted)
  {
    keyAndOid := key;
    if !keyFormatted {
      keyAndOid := RightJustified(key, WIDTH, '0');
    }
    keyAndOid := keyAndOid + "-";
    ghost var head := keyAndOid;
    var digits := Split(oid, '.');
    for i := 0 to |digits| - 1
      invariant keyAndOid == head + Cells(digits[..i])
    {
      CellsAppend(digits[..i], digits[i]);
      assert digits[..i + 1] == digits[..i] + [digits[i]];
      keyAndOid := keyAndOid + RightJustified(digits[i] + ".", WIDTH + 1, ' ');
    }
    keyAndOid := keyAndOid + RightJustified(digits[|digits| - 1], WIDTH, ' ');
  }

  // ----- Round trip -----

  predicate Lacks(s: string, c: char) {
    forall i :: 0 <= i < |s| ==> s[i] != c
  }

  function Join(parts: seq<string>): string
    requires |parts| > 0
  {
    if |parts| == 1 then parts[0] else parts[0] + "." + Join(parts[1..])
  }

  lemma {:induction false} SplitParts(s: string, sep: char, c: char)
    requires Lacks(s, c)
    ensures forall i :: 0 <= i < |Split(s, sep)| ==> Lacks(Split(s, sep)[i], c)
  {
    if s != "" {
      SplitParts(s[1..], sep, c);
    }
  }

  lemma {:induction false} JoinSplit(s: string)
    ensures Join(Split(s, '.')) == s
  {
    if s != "" {
      JoinSplit(s[1..]);
      var rest := Split(s[1..], '.');
      if s[0] == '.' {
        assert ([""] + rest)[1..] == rest;
      } else {
        var parts := [[s[0]] + rest[0]] + rest[1..];
        assert parts[1..] == rest[1..];
        assert s == [s[0]] + s[1..];
      }
    }
  }

  lemma {:induction false} WithoutSpacesAppend(a: string, b: string)
    ensures WithoutSpaces(a + b) == WithoutSpaces(a) + WithoutSpaces(b)
  {
    if a == "" {
      assert a + b == b;
    } else {
      WithoutSpacesAppend(a[1..], b);
      assert (a + b)[1..] == a[1..] + b;
    }
  }

  lemma {:induction false} NoSpacesToRemove(s: string)
    requires Lacks(s, ' ')
    ensures WithoutSpaces(s) == s
  {
    if s != "" {
      NoSpacesToRemove(s[1..]);
      assert s == [s[0]] + s[1..];
    }
  }

  lemma {:induction false} OnlySpaces(n: nat)
    ensures WithoutSpaces(Repeat(' ', n)) == ""
  {
    if n > 0 {
      OnlySpaces(n - 1);
      assert Repeat(' ', n)[1..] == Repeat(' ', n - 1);
    }
  }

  lemma PaddingIsRemoved(s: string, width: nat)
    requires Lacks(s, ' ')
    ensures WithoutSpaces(RightJustified(s, width, ' ')) == s
  {
    NoSpacesToRemove(s);
    if |s| < width {
      OnlySpaces(width - |s|);
      WithoutSpacesAppend(Repeat(' ', width - |s|), s);
    }
  }

  lemma {:induction false} BodyIsJoin(parts: seq<string>)
    requires |parts| > 0 && forall i :: 0 <= i < |parts| ==> Lacks(parts[i], ' ')
    ensures WithoutSpaces(Body(parts)) == Join(parts)
  {
    if |parts| == 1 {
      assert Cells(parts[..0]) == "";
      PaddingIsRemoved(parts[0], WIDTH);
      assert Body(parts) == RightJustified(parts[0], WIDTH, ' ');
    } else {
      var rest := parts[1..];
      var cell := RightJustified(parts[0] + ".", WIDTH + 1, ' ');
      BodyIsJoin(rest);
      PaddingIsRemoved(parts[0] + ".", WIDTH + 1);
      WithoutSpacesAppend(cell, Body(rest));
      assert parts[..|parts| - 1][1..] == rest[..|rest| - 1];
      assert Body(parts) == cell + Body(rest);
    }
  }

  lemma {:induction false} SplitOnce(a: string, b: string, sep: char)
    requires Lacks(a, sep) && Lacks(b, sep)
    ensures Split(b, sep) == [b]
    ensures Split(a + [sep] + b, sep) == [a, b]
  {
    SplitNever(b, sep);
    if a == "" {
      assert a + [sep] + b == [sep] + b;
      assert ([sep] + b)[1..] == b;
    } else {
      SplitOnce(a[1..], b, sep);
      assert (a + [sep] + b)[1..] == a[1..] + [sep] + b;
      assert [a[0]] + a[1..] == a;
    }
  }

  lemma {:induction false} SplitNever(s: string, sep: char)
    requires Lacks(s, sep)
    ensures Split(s, sep) == [s]
  {
    if s != "" {
      SplitNever(s[1..], sep);
      assert [s[0]] + s[1..] == s;
    }
  }

  lemma {:induction false} CellsLack(parts: seq<string>, c: char)
    requires c != ' ' && c != '.' && forall i :: 0 <= i < |parts| ==> Lacks(parts[i], c)
    ensures Lacks(Cells(parts), c)
  {
    if parts != [] {
      CellsLack(parts[1..], c);
    }
  }

  lemma {:induction false} ZerosAddNothing(s: string, n: nat)
    requires AllDigits(s)
    ensures AllDigits(Repeat('0', n) + s) && Value(Repeat('0', n) + s) == Value(s)
  {
    var t := Repeat('0', n) + s;
    if s == "" {
      if n > 0 {
        ZerosAddNothing(s, n - 1);
        assert t[..|t| - 1] == Repeat('0', n - 1) + s;
      }
    } else {
      ZerosAddNothing(s[..|s| - 1], n);
      assert t[..|t| - 1] == Repeat('0', n) + s[..|s| - 1];
    }
  }

  /** Parsing a printed key gives back the asset key and the object identifier, for every
      identifier without dashes and spaces. */
  lemma FormatRoundTrip(key: string, oid: string, keyFormatted: bool)
    requires key != "" && AllDigits(key) && Lacks(oid, '-') && Lacks(oid, ' ')
    ensures Parse(Format(key, oid, keyFormatted)) == Some((Value(key), oid))
  {
    var k := FormatKey(key, keyFormatted);
    var parts := Split(oid, '.');
    SplitParts(oid, '.', '-');
    SplitParts(oid, '.', ' ');
    CellsLack(parts[..|parts| - 1], '-');
    ZerosAddNothing(key, if |key| < WIDTH then WIDTH - |key| else 0);
    SplitOnce(k, Body(parts), '-');
    BodyIsJoin(parts);
    JoinSplit(oid);
  }

  /** So different objects never share a key. */
  lemma KeysAreDistinct(k1: string, o1: string, k2: string, o2: string, keyFormatted: bool)
    requires k1 != "" && AllDigits(k1) && Lacks(o1, '-') && Lacks(o1, ' ')
    requires k2 != "" && AllDigits(k2) && Lacks(o2, '-') && Lacks(o2, ' ')
    requires Format(k1, o1, keyFormatted) == Format(k2, o2, keyFormatted)
    ensures Value(k1) == Value(k2) && o1 == o2
  {
    FormatRoundTrip(k1, o1, keyFormatted);
    FormatRoundTrip(k2, o2, keyFormatted);
  }

  // ----- Order -----

  /** The order of the store: character by character, a prefix first. */
  predicate StringLess(a: string, b: string) {
    if b == "" then false
    else if a == "" then true
    else a[0] < b[0] || (a[0] == b[0] && StringLess(a[1..], b[1..]))
  }

  /** The order of object identifiers: number by number, a prefix first. */
  predicate OidLess(a: seq<nat>, b: seq<nat>) {
    if b == [] then false
    else if a == [] then true
    else a[0] < b[0] || (a[0] == b[0] && OidLess(a[1..], b[1..]))
  }

  function Digit(d: nat): char
    requires d < 10
  {
    ('0' as int + d) as char
  }

  function Decimal(n: nat): (s: string)
    ensures s != "" && AllDigits(s)
  {
    if n < 10 then [Digit(n)] else Decimal(n / 10) + [Digit(n % 10)]
  }

  /** The number in `width` places, with leading spaces. */
  function Field(n: nat, width: nat): (s: string)
    ensures |s| == width
  {
    if width == 0 then ""
    else if n < 10 then Repeat(' ', width - 1) + [Digit(n)]
    else Field(n / 10, width - 1) + [Digit(n % 10)]
  }

  predicate Fits(n: nat, width: nat) {
    if n < 10 then width > 0 else width > 0 && Fits(n / 10, width - 1)
  }

  lemma {:induction false} FieldIsJustified(n: nat, width: nat)
    requires Fits(n, width)
    ensures |Decimal(n)| <= width && RightJustified(Decimal(n), width, ' ') == Field(n, width)
  {
    if n >= 10 {
      FieldIsJustified(n / 10, width - 1);
      var d := Decimal(n / 10);
      assert RightJustified(d, width - 1, ' ') == Repeat(' ', width - 1 - |d|) + d;
    }
  }

  function Power10(w: nat): nat {
    if w == 0 then 1 else 10 * Power10(w - 1)
  }

  lemma {:induction false} SmallNumbersFit(n: nat, width: nat)
    requires width > 0 && n < Power10(width)
    ensures Fits(n, width)
  {
    if n >= 10 {
      SmallNumbersFit(n / 10, width - 1);
    }
  }

  lemma TenPlacesFit(n: nat)
    requires n < 10_000_000_000
    ensures Fits(n, WIDTH)
  {
    assert Power10(5) == 100_000 && Power10(10) == 100_000 * Power10(5);
    SmallNumbersFit(n, WIDTH);
  }

  // Comparing strings piece by piece.

  lemma {:induction false} LessStays(a: string, b: string, c: string, d: string)
    requires |a| == |b| && StringLess(a, b)
    ensures StringLess(a + c, b + d)
  {
    assert (a + c)[0] == a[0] && (b + d)[0] == b[0];
    if a[0] == b[0] {
      LessStays(a[1..], b[1..], c, d);
      assert (a + c)[1..] == a[1..] + c && (b + d)[1..] == b[1..] + d;
    }
  }

  lemma {:induction false} SamePrefix(p: string, a: string, b: string)
    ensures StringLess(p + a, p + b) == StringLess(a, b)
  {
    if p == "" {
      assert p + a == a && p + b == b;
    } else {
      SamePrefix(p[1..], a, b);
      assert (p + a)[1..] == p[1..] + a && (p + b)[1..] == p[1..] + b;
    }
  }

  lemma {:induction false} LessIsAsymmetric(a: string, b: string)
    requires StringLess(a, b)
    ensures !StringLess(b, a) && a != b
  {
    if a != "" && a[0] == b[0] {
      LessIsAsymmetric(a[1..], b[1..]);
    }
  }

  lemma {:induction false} SpacesComeFirst(n: nat, width: nat)
    requires Fits(n, width)
    ensures StringLess(Repeat(' ', width), Field(n, width))
  {
    var spaces := Repeat(' ', width - 1);
    assert Repeat(' ', width) == spaces + [' '];
    if n < 10 {
      SamePrefix(spaces, [' '], [Digit(n)]);
    } else {
      SpacesComeFirst(n / 10, width - 1);
      LessStays(spaces, Field(n / 10, width - 1), [' '], [Digit(n % 10)]);
    }
  }

  /** Printed numbers of one width are ordered like the numbers. */
  lemma {:induction false} FieldsAreOrdered(m: nat, n: nat, width: nat)
    requires m < n && Fits(m, width) && Fits(n, width)
    ensures StringLess(Field(m, width), Field(n, width))
  {
    if n < 10 {
      SamePrefix(Repeat(' ', width - 1), [Digit(m)], [Digit(n)]);
    } else if m < 10 {
      SpacesComeFirst(n / 10, width - 1);
      LessStays(Repeat(' ', width - 1), Field(n / 10, width - 1), [Digit(m)], [Digit(n % 10)]);
    } else if m / 10 < n / 10 {
      FieldsAreOrdered(m / 10, n / 10, width - 1);
      LessStays(Field(m / 10, width - 1), Field(n / 10, width - 1), [Digit(m % 10)], [Digit(n % 10)]);
    } else {
      SamePrefix(Field(m / 10, width - 1), [Digit(m % 10)], [Digit(n % 10)]);
    }
  }

  /** The printed identifier, seen as fields separated by dots. */
  function Fields(oid: seq<nat>): string
    requires |oid| > 0
  {
    if |oid| == 1 then Field(oid[0], WIDTH) else Field(oid[0], WIDTH) + "." + Fields(oid[1..])
  }

  predicate Printable(oid: seq<nat>) {
    |oid| > 0 && forall i :: 0 <= i < |oid| ==> oid[i] < 10_000_000_000
  }

  lemma {:induction false} FieldsAreOrderedLikeOids(a: seq<nat>, b: seq<nat>)
    requires Printable(a) && Printable(b) && OidLess(a, b)
    ensures StringLess(Fields(a), Fields(b))
  {
    TenPlacesFit(a[0]);
    TenPlacesFit(b[0]);
    var x, y := Field(a[0], WIDTH), Field(b[0], WIDTH);
    var restA := if |a| == 1 then "" else "." + Fields(a[1..]);
    var restB := if |b| == 1 then "" else "." + Fields(b[1..]);
    assert Fields(a) == x + restA && Fields(b) == y + restB;
    if a[0] < b[0] {
      FieldsAreOrdered(a[0], b[0], WIDTH);
      LessStays(x, y, restA, restB);
    } else {
      SamePrefix(x, restA, restB);
      if |a| > 1 {
        FieldsAreOrderedLikeOids(a[1..], b[1..]);
        SamePrefix(".", Fields(a[1..]), Fields(b[1..]));
      }
    }
  }

  lemma {:induction false} OidsAreComparable(a: seq<nat>, b: seq<nat>)
    ensures OidLess(a, b) || OidLess(b, a) || a == b
  {
    if a != [] && b != [] {
      OidsAreComparable(a[1..], b[1..]);
      if a[0] == b[0] && a[1..] == b[1..] {
        assert a == [a[0]] + a[1..] && b == [b[0]] + b[1..];
      }
    }
  }

  /** The dotted notation. */
  function Dotted(oid: seq<nat>): string
    requires |oid| > 0
  {
    if |oid| == 1 then Decimal(oid[0]) else Decimal(oid[0]) + "." + Dotted(oid[1..])
  }

  function Decimals(oid: seq<nat>): seq<string> {
    seq(|oid|, i requires 0 <= i < |oid| => Decimal(oid[i]))
  }

  lemma {:induction false} SplitFirst(a: string, b: string)
    requires Lacks(a, '.')
    ensures Split(a + "." + b, '.') == [a] + Split(b, '.')
  {
    if a == "" {
      assert a + "." + b == "." + b;
      assert ("." + b)[1..] == b;
    } else {
      SplitFirst(a[1..], b);
      assert (a + "." + b)[1..] == a[1..] + "." + b;
      assert [a[0]] + a[1..] == a;
      assert ([a[1..]] + Split(b, '.'))[1..] == Split(b, '.');
    }
  }

  lemma {:induction false} SplitDotted(oid: seq<nat>)
    requires |oid| > 0
    ensures Split(Dotted(oid), '.') == Decimals(oid)
  {
    var d := Decimal(oid[0]);
    assert Lacks(d, '.');
    if |oid| == 1 {
      SplitNever(d, '.');
    } else {
      SplitDotted(oid[1..]);
      SplitFirst(d, Dotted(oid[1..]));
      assert Decimals(oid) == [d] + Decimals(oid[1..]);
    }
  }

  lemma CellIsField(n: nat)
    requires n < 10_000_000_000
    ensures RightJustified(Decimal(n) + ".", WIDTH + 1, ' ') == Field(n, WIDTH) + "."
    ensures RightJustified(Decimal(n), WIDTH, ' ') == Field(n, WIDTH)
  {
    TenPlacesFit(n);
    FieldIsJustified(n, WIDTH);
  }

  lemma {:induction false} BodyIsFields(oid: seq<nat>)
    requires Printable(oid)
    ensures Body(Decimals(oid)) == Fields(oid)
  {
    var parts := Decimals(oid);
    CellIsField(oid[0]);
    if |oid| == 1 {
      assert Cells(parts[..0]) == "";
    } else {
      BodyIsFields(oid[1..]);
      assert parts[1..] == Decimals(oid[1..]);
      assert parts[..|parts| - 1][1..] == parts[1..][..|parts| - 2];
      assert Body(parts) == RightJustified(parts[0] + ".", WIDTH + 1, ' ') + Body(parts[1..]);
    }
  }

  /** For numbers of at most ten digits the keys of one asset are ordered exactly like its object
      identifiers, the order in which GetNextRequest walks them (section 4.2.2 of RFC 3416). */
  lemma KeysAreOrderedLikeOids(key: string, a: seq<nat>, b: seq<nat>, keyFormatted: bool)
    requires Printable(a) && Printable(b)
    ensures StringLess(Format(key, Dotted(a), keyFormatted), Format(key, Dotted(b), keyFormatted)) <==> OidLess(a, b)
  {
    SplitDotted(a);
    SplitDotted(b);
    BodyIsFields(a);
    BodyIsFields(b);
    SamePrefix(FormatKey(key, keyFormatted) + "-", Fields(a), Fields(b));
    if OidLess(a, b) {
      FieldsAreOrderedLikeOids(a, b);
    } else if OidLess(b, a) {
      FieldsAreOrderedLikeOids(b, a);
      LessIsAsymmetric(Fields(b), Fields(a));
    } else {
      OidsAreComparable(a, b);
      if StringLess(Fields(a), Fields(a)) {
        LessIsAsymmetric(Fields(a), Fields(a));
      }
    }
  }

  // ----- Across assets -----

  lemma ValueOfLast(s: string)
    requires AllDigits(s) && s != ""
    ensures var n := |s| - 1;
            && AllDigits(s[..n]) && IsDigit(s[n]) && s == s[..n] + [s[n]]
            && Value(s) == 10 * Value(s[..n]) + (s[n] as int - '0' as int)
  {
  }

  /** Digit strings of one length are ordered like their values. */
  lemma {:induction false} DigitsAreOrdered(a: string, b: string)
    requires AllDigits(a) && AllDigits(b) && |a| == |b|
    ensures Value(a) < Value(b) ==> StringLess(a, b)
    ensures Value(a) == Value(b) ==> a == b
  {
    if a != "" {
      var n := |a| - 1;
      var x, y := a[..n], b[..n];
      ValueOfLast(a);
      ValueOfLast(b);
      DigitsAreOrdered(x, y);
      LastDigitDecides(x, y, a[n], b[n]);
      hide Value, StringLess;
    }
  }

  lemma LastDigitDecides(x: string, y: string, c: char, d: char)
    requires |x| == |y|
    ensures StringLess(x, y) ==> StringLess(x + [c], y + [d])
    ensures x == y && c < d ==> StringLess(x + [c], y + [d])
  {
    if StringLess(x, y) {
      LessStays(x, y, [c], [d]);
    }
    if x == y && c < d {
      SamePrefix(x, [c], [d]);
    }
  }

  lemma ZeroFilled(k: string)
    requires AllDigits(k) && |k| <= WIDTH
    ensures var x := FormatKey(k, false); AllDigits(x) && |x| == WIDTH && Value(x) == Value(k)
  {
    ZerosAddNothing(k, WIDTH - |k|);
    assert FormatKey(k, false) == Repeat('0', WIDTH - |k|) + k;
    hide Value;
  }

  lemma KeyComesFirst(k: string, o: string)
    ensures Format(k, o, false) == FormatKey(k, false) + ("-" + Body(Split(o, '.')))
  {
    hide Body, Split, FormatKey;
  }

  /** Keys that are zero-filled sort by asset first: every object of an asset with a smaller number comes
      before every object of one with a larger number. */
  lemma KeysAreOrderedByAsset(k1: string, o1: string, k2: string, o2: string)
    requires AllDigits(k1) && AllDigits(k2) && |k1| <= WIDTH && |k2| <= WIDTH && Value(k1) < Value(k2)
    ensures StringLess(Format(k1, o1, false), Format(k2, o2, false))
  {
    hide Value, StringLess, FormatKey, Body, Split, Format;
    ZeroFilled(k1);
    ZeroFilled(k2);
    KeyComesFirst(k1, o1);
    KeyComesFirst(k2, o2);
    DigitsAreOrdered(FormatKey(k1, false), FormatKey(k2, false));
    LessStays(FormatKey(k1, false), FormatKey(k2, false), "-" + Body(Split(o1, '.')), "-" + Body(Split(o2, '.')));
  }
}
