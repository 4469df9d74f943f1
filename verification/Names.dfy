/**
 File names for Windows: making a segment acceptable, and reserving a name in a directory
 so that no two names differ only in letter case.

 Lower-casing is a map from each character to a string, the identity on digits, spaces and
 parentheses.
 */
module Names {
  import opened Optional

  const MAX_UNITS: nat := 240
  const MAX_SUFFIX: nat := 0xFFFF_FFFF

  // ---------------------------------------------------------------------------
  // Characters
  // ---------------------------------------------------------------------------

  function UnitsOf(c: char): nat { if (c as int) < 0x1_0000 then 1 else 2 }

  function Units(s: string): nat {
    if s == [] then 0 else UnitsOf(s[0]) + Units(s[1..])
  }

  predicate IsControl(c: char) {
    (c as int) < 0x20 || 0x7F <= (c as int) <= 0x9F
  }

  predicate IsForbidden(c: char) {
    c in {'<', '>', ':', '\"', '/', '\\', '|', '?', '*'}
  }

  predicate Clean(s: string) {
    forall i :: 0 <= i < |s| ==> !IsControl(s[i]) && !IsForbidden(s[i])
  }

  predicate IsWhite(c: char) {
    var n := c as int;
    9 <= n <= 13 || n == 0x20 || n == 0x85 || n == 0xA0 || n == 0x1680 || 0x2000 <= n <= 0x200A
    || n == 0x2028 || n == 0x2029 || n == 0x202F || n == 0x205F || n == 0x3000
  }

  function AsciiUpper(c: char): char {
    if 'a' <= c <= 'z' then (c as int - 32) as char else c
  }

  // ---------------------------------------------------------------------------
  // Sanitizing one segment
  // ---------------------------------------------------------------------------

  function Replaced(s: string): (r: string)
    ensures |r| == |s|
  {
    if s == [] then [] else [if IsControl(s[0]) || IsForbidden(s[0]) then '_' else s[0]] + Replaced(s[1..])
  }

  function StripTail(s: string): string {
    if s != [] && (s[|s| - 1] == ' ' || s[|s| - 1] == '.') then StripTail(s[..|s| - 1]) else s
  }

  function BeforeDot(s: string): string {
    if s == [] || s[0] == '.' then [] else [s[0]] + BeforeDot(s[1..])
  }

  function TrimEnd(s: string): string {
    if s != [] && IsWhite(s[|s| - 1]) then TrimEnd(s[..|s| - 1]) else s
  }

  function Upper(s: string): string {
    if s == [] then [] else [AsciiUpper(s[0])] + Upper(s[1..])
  }

  predicate IsReserved(s: string) {
    Upper(TrimEnd(BeforeDot(s))) in {
      "CON", "PRN", "AUX", "NUL",
      "COM1", "COM2", "COM3", "COM4", "COM5", "COM6", "COM7", "COM8", "COM9",
      "LPT1", "LPT2", "LPT3", "LPT4", "LPT5", "LPT6", "LPT7", "LPT8", "LPT9" }
  }

  /** The longest prefix that does not run over `max` UTF-16 units. */
  function Truncate(s: string, max: nat): string {
    if s == [] || UnitsOf(s[0]) > max then [] else [s[0]] + Truncate(s[1..], max - UnitsOf(s[0]))
  }

  function Named(segment: string): string {
    var stripped := StripTail(Replaced(segment));
    if stripped == [] || stripped == "." || stripped == ".." then "untitled" else stripped
  }

  /** The segment before it is cut to length. */
  function Acceptable(segment: string): string {
    if IsReserved(Named(segment)) then Named(segment) + "_" else Named(segment)
  }

  function Sanitize(segment: string): string {
    Truncate(Acceptable(segment), MAX_UNITS)
  }

  /** What a relative path accepts as one segment. */
  predicate SegmentOk(s: string) {
    && s != [] && s != "." && s != ".." && Units(s) <= 255
    && forall i :: 0 <= i < |s| ==> s[i] != '/' && s[i] != '\\' && !IsControl(s[i])
  }

  lemma {:induction false} UnitsBounds(s: string)
    ensures |s| <= Units(s) <= 2 * |s|
  {
    if s != [] {
      UnitsBounds(s[1..]);
    }
  }

  lemma {:induction false} UnitsConcat(a: string, b: string)
    ensures Units(a + b) == Units(a) + Units(b)
  {
    if a == [] {
      assert a + b == b;
    } else {
      assert (a + b)[1..] == a[1..] + b;
      UnitsConcat(a[1..], b);
    }
  }

  lemma {:induction false} TruncateBounds(s: string, max: nat)
    ensures Truncate(s, max) <= s && Units(Truncate(s, max)) <= max
    ensures Truncate(s, max) == s || Units(Truncate(s, max)) + 2 > max
    ensures Truncate(s, max) == s || Units(s[..|Truncate(s, max)| + 1]) > max
  {
    if s != [] && UnitsOf(s[0]) <= max {
      var rest, r := s[1..], Truncate(s[1..], max - UnitsOf(s[0]));
      TruncateBounds(rest, max - UnitsOf(s[0]));
      assert Truncate(s, max)[1..] == r;
      assert r != rest ==> s[..|r| + 2][1..] == rest[..|r| + 1];
    }
  }

  lemma {:induction false} ReplacedIsClean(s: string)
    ensures Clean(Replaced(s))
  {
    if s != [] {
      ReplacedIsClean(s[1..]);
    }
  }

  lemma {:induction false} StripTailOf(s: string)
    ensures StripTail(s) <= s
    ensures StripTail(s) != [] ==> StripTail(s)[|StripTail(s)| - 1] != '.' && StripTail(s)[|StripTail(s)| - 1] != ' '
  {
    if s != [] && (s[|s| - 1] == ' ' || s[|s| - 1] == '.') {
      StripTailOf(s[..|s| - 1]);
    }
  }

  lemma NamedShape(segment: string)
    ensures var r := Named(segment);
            Clean(r) && r != [] && r[|r| - 1] != '.'
  {
    ReplacedIsClean(segment);
    StripTailOf(Replaced(segment));
  }

  lemma AcceptableShape(segment: string)
    ensures var r := Acceptable(segment);
            Clean(r) && r != [] && r[|r| - 1] != '.'
  {
    NamedShape(segment);
  }

  /** A sanitized segment passes the checks on path segments and is at most 240 units long. */
  lemma SanitizedSegment(segment: string)
    ensures var r := Sanitize(segment);
            Clean(r) && SegmentOk(r) && 0 < |r| && Units(r) <= MAX_UNITS
  {
    var full, r := Acceptable(segment), Sanitize(segment);
    AcceptableShape(segment);
    TruncateBounds(full, MAX_UNITS);
    UnitsBounds(r);
    assert forall i :: 0 <= i < |r| ==> r[i] == full[i];
  }

  lemma {:induction false} ReplacedAt(s: string, i: nat)
    requires i < |s|
    ensures Replaced(s)[i]
            == if (s[i] as int) < 0x20 || 0x7F <= (s[i] as int) <= 0x9F || s[i] in "<>:\"/\\|?*" then '_' else s[i]
  {
    if i > 0 {
      ReplacedAt(s[1..], i - 1);
    }
  }

  lemma {:induction false} StripTailAt(s: string, k: nat)
    requires k <= |s| && (forall i :: k <= i < |s| ==> s[i] == ' ' || s[i] == '.')
    requires k > 0 ==> s[k - 1] != ' ' && s[k - 1] != '.'
    ensures StripTail(s) == s[..k]
    decreases |s|
  {
    if k < |s| {
      StripTailAt(s[..|s| - 1], k);
      assert s[..|s| - 1][..k] == s[..k];
    } else {
      assert s[..k] == s;
    }
  }

  /**
   A segment's name is the segment up to its trailing spaces and dots, with an underscore for
   each character Windows forbids; nothing left is called untitled.
   */
  lemma NamedForm(segment: string, name: string)
    requires |name| <= |segment| && forall i :: |name| <= i < |segment| ==> segment[i] == ' ' || segment[i] == '.'
    requires name != [] ==> name[|name| - 1] != ' ' && name[|name| - 1] != '.'
    requires forall i :: 0 <= i < |name| ==>
               name[i] == if IsControl(segment[i]) || IsForbidden(segment[i]) then '_' else segment[i]
    ensures Named(segment) == if name == [] then "untitled" else name
  {
    var all := Replaced(segment);
    forall i | 0 <= i < |segment|
      ensures all[i] == if IsControl(segment[i]) || IsForbidden(segment[i]) then '_' else segment[i]
    {
      ReplacedAt(segment, i);
    }
    StripTailAt(all, |name|);
    assert all[..|name|] == name;
  }

  // ---------------------------------------------------------------------------
  // Reserved names
  // ---------------------------------------------------------------------------

  /** This capital letter, or its small one. */
  predicate Letter(c: char, capital: char) {
    c == capital || c as int == capital as int + 32
  }

  predicate Spells(s: string, a: char, b: char, c: char)
    requires |s| >= 3
  {
    Letter(s[0], a) && Letter(s[1], b) && Letter(s[2], c)
  }

  predicate IsDevice(s: string) {
    || (|s| == 3 && (Spells(s, 'C', 'O', 'N') || Spells(s, 'P', 'R', 'N') || Spells(s, 'A', 'U', 'X') || Spells(s, 'N', 'U', 'L')))
    || (|s| == 4 && '1' <= s[3] <= '9' && (Spells(s, 'C', 'O', 'M') || Spells(s, 'L', 'P', 'T')))
  }

  lemma {:induction false} UpperAt(s: string, i: nat)
    requires i < |s|
    ensures |Upper(s)| == |s| && Upper(s)[i] == AsciiUpper(s[i])
  {
    UpperLength(s);
    if i > 0 {
      UpperAt(s[1..], i - 1);
    }
  }

  lemma UpperSpells(s: string, a: char, b: char, c: char)
    requires |s| >= 3 && 'A' <= a <= 'Z' && 'A' <= b <= 'Z' && 'A' <= c <= 'Z'
    ensures |Upper(s)| == |s| && (Spells(s, a, b, c) <==> Starts(Upper(s), a, b, c))
  {
    UpperAt(s, 0);
    UpperAt(s, 1);
    UpperAt(s, 2);
  }

  predicate Starts(u: string, a: char, b: char, c: char) {
    |u| >= 3 && u[0] == a && u[1] == b && u[2] == c
  }

  lemma NameIs(u: string, name: string)
    requires |name| == 3
    ensures u == name <==> |u| == 3 && Starts(u, name[0], name[1], name[2])
  {
  }

  lemma PortIs(u: string, name: string)
    requires |name| == 4
    ensures u == name <==> |u| == 4 && Starts(u, name[0], name[1], name[2]) && u[3] == name[3]
  {
  }

  lemma ComPorts(u: string)
    ensures u in {"COM1", "COM2", "COM3", "COM4", "COM5", "COM6", "COM7", "COM8", "COM9"}
            <==> |u| == 4 && Starts(u, 'C', 'O', 'M') && '1' <= u[3] <= '9'
  {
    PortIs(u, "COM1"); PortIs(u, "COM2"); PortIs(u, "COM3");
    PortIs(u, "COM4"); PortIs(u, "COM5"); PortIs(u, "COM6");
    PortIs(u, "COM7"); PortIs(u, "COM8"); PortIs(u, "COM9");
  }

  lemma LptPorts(u: string)
    ensures u in {"LPT1", "LPT2", "LPT3", "LPT4", "LPT5", "LPT6", "LPT7", "LPT8", "LPT9"}
            <==> |u| == 4 && Starts(u, 'L', 'P', 'T') && '1' <= u[3] <= '9'
  {
    PortIs(u, "LPT1"); PortIs(u, "LPT2"); PortIs(u, "LPT3");
    PortIs(u, "LPT4"); PortIs(u, "LPT5"); PortIs(u, "LPT6");
    PortIs(u, "LPT7"); PortIs(u, "LPT8"); PortIs(u, "LPT9");
  }

  lemma Consoles(u: string)
    ensures u in {"CON", "PRN", "AUX", "NUL"}
            <==> |u| == 3 && (Starts(u, 'C', 'O', 'N') || Starts(u, 'P', 'R', 'N') || Starts(u, 'A', 'U', 'X') || Starts(u, 'N', 'U', 'L'))
  {
    NameIs(u, "CON");
    NameIs(u, "PRN");
    NameIs(u, "AUX");
    NameIs(u, "NUL");
  }

  lemma UpperDevice(s: string)
    ensures var u := Upper(s);
            IsDevice(s) <==>
            || (|u| == 3 && (Starts(u, 'C', 'O', 'N') || Starts(u, 'P', 'R', 'N') || Starts(u, 'A', 'U', 'X') || Starts(u, 'N', 'U', 'L')))
            || (|u| == 4 && '1' <= u[3] <= '9' && (Starts(u, 'C', 'O', 'M') || Starts(u, 'L', 'P', 'T')))
  {
    UpperLength(s);
    if |s| >= 3 {
      UpperSpells(s, 'C', 'O', 'N');
      UpperSpells(s, 'P', 'R', 'N');
      UpperSpells(s, 'A', 'U', 'X');
      UpperSpells(s, 'N', 'U', 'L');
      UpperSpells(s, 'C', 'O', 'M');
      UpperSpells(s, 'L', 'P', 'T');
    }
    if |s| == 4 {
      UpperAt(s, 3);
    }
  }

  lemma {:induction false} TrimEndAt(s: string, k: nat)
    requires k <= |s| && (forall i :: k <= i < |s| ==> IsWhite(s[i])) && (k > 0 ==> !IsWhite(s[k - 1]))
    ensures TrimEnd(s) == s[..k]
    decreases |s|
  {
    if k < |s| {
      TrimEndAt(s[..|s| - 1], k);
      assert s[..|s| - 1][..k] == s[..k];
    } else {
      assert s[..k] == s;
    }
  }

  lemma StemOf(stem: string, blank: string, rest: string)
    requires '.' !in stem && (stem != [] ==> !IsWhite(stem[|stem| - 1]))
    requires (forall i :: 0 <= i < |blank| ==> IsWhite(blank[i])) && (rest == [] || rest[0] == '.')
    ensures TrimEnd(BeforeDot(stem + blank + rest)) == stem
  {
    var head := stem + blank;
    assert '.' !in head;
    BeforeDotAppend(head, rest);
    assert BeforeDot(rest) == [] && head + [] == head;
    TrimEndAt(head, |stem|);
    assert head[..|stem|] == stem;
  }

  /** A name is reserved exactly when what stands before its first dot, less white space, spells a device. */
  lemma ReservedIff(stem: string, blank: string, rest: string)
    requires '.' !in stem && (stem != [] ==> !IsWhite(stem[|stem| - 1]))
    requires (forall i :: 0 <= i < |blank| ==> IsWhite(blank[i])) && (rest == [] || rest[0] == '.')
    ensures IsReserved(stem + blank + rest) <==> IsDevice(stem)
  {
    StemOf(stem, blank, rest);
    UpperDevice(stem);
    Consoles(Upper(stem));
    ComPorts(Upper(stem));
    LptPorts(Upper(stem));
  }

  // ---------------------------------------------------------------------------
  // Collision suffixes
  // ---------------------------------------------------------------------------

  function Digits(n: nat): (r: string)
    ensures |r| > 0
  {
    if n < 10 then [('0' as int + n) as char] else Digits(n / 10) + [('0' as int + n % 10) as char]
  }

  function NumberOf(s: string): int {
    if s == [] then 0 else 10 * NumberOf(s[..|s| - 1]) + (s[|s| - 1] as int - '0' as int)
  }

  predicate IsDigit(c: char) { '0' <= c <= '9' }

  lemma {:induction false} DigitsOf(n: nat)
    ensures NumberOf(Digits(n)) == n
    ensures forall i :: 0 <= i < |Digits(n)| ==> IsDigit(Digits(n)[i])
  {
    if n >= 10 {
      DigitsOf(n / 10);
      assert Digits(n)[..|Digits(n)| - 1] == Digits(n / 10);
    }
  }

  lemma TenDigits(n: nat)
    requires n <= MAX_SUFFIX
    ensures |Digits(n)| <= 10
  {
    var a := n / 10; var b := a / 10; var c := b / 10; var d := c / 10; var e := d / 10;
    var f := e / 10; var g := f / 10; var h := g / 10; var i := h / 10;
    assert i < 10;
    assert |Digits(i)| == 1;
    assert |Digits(h)| <= 2;
    assert |Digits(g)| <= 3;
    assert |Digits(f)| <= 4;
    assert |Digits(e)| <= 5;
    assert |Digits(d)| <= 6;
    assert |Digits(c)| <= 7;
    assert |Digits(b)| <= 8;
    assert |Digits(a)| <= 9;
  }

  function Suffix(n: nat): string { " (" + Digits(n) + ")" }

  /** The length of the part before the last dot, or of the whole name. */
  function StemLength(name: string, i: nat): (r: nat)
    requires i <= |name|
    ensures r <= |name|
    decreases i
  {
    if i == 0 then |name|
    else if name[i - 1] == '.' then (if i - 1 > 0 then i - 1 else |name|)
    else StemLength(name, i - 1)
  }

  function Stem(name: string, directory: bool): string {
    if directory then name else name[..StemLength(name, |name|)]
  }

  function Extension(name: string, directory: bool): string {
    if directory then [] else name[StemLength(name, |name|)..]
  }

  function Monus(a: nat, b: nat): nat { if a >= b then a - b else 0 }

  function WithSuffix(name: string, n: nat, directory: bool): string {
    var extension := Extension(name, directory);
    Truncate(Stem(name, directory), Monus(MAX_UNITS, Units(Suffix(n)) + Units(extension))) + Suffix(n) + extension
  }

  lemma {:induction false} StemNotEmpty(name: string, i: nat)
    requires 0 < |name| && i <= |name|
    ensures StemLength(name, i) > 0
    decreases i
  {
    if i > 0 && name[i - 1] != '.' {
      StemNotEmpty(name, i - 1);
    }
  }

  lemma {:induction false} AsciiUnits(s: string)
    requires forall i :: 0 <= i < |s| ==> (s[i] as int) < 0x1_0000
    ensures Units(s) == |s|
  {
    if s != [] {
      AsciiUnits(s[1..]);
    }
  }

  lemma SuffixShape(n: nat)
    ensures Clean(Suffix(n)) && Units(Suffix(n)) == |Digits(n)| + 3 && '(' in Suffix(n)
  {
    DigitsOf(n);
    AsciiUnits(Suffix(n));
    assert Suffix(n)[1] == '(';
  }

  lemma NameParts(name: string, directory: bool)
    requires 0 < |name|
    ensures name == Stem(name, directory) + Extension(name, directory)
    ensures Units(name) == Units(Stem(name, directory)) + Units(Extension(name, directory))
    ensures 1 <= Units(Stem(name, directory))
  {
    var stem, extension := Stem(name, directory), Extension(name, directory);
    assert name == stem + extension;
    UnitsConcat(stem, extension);
    StemNotEmpty(name, |name|);
    UnitsBounds(stem);
  }

  lemma JoinedUnits(head: string, suffix: string, extension: string)
    ensures Units(head + suffix + extension) == Units(head) + Units(suffix) + Units(extension)
  {
    UnitsConcat(head + suffix, extension);
    UnitsConcat(head, suffix);
  }

  lemma NumberedUnits(name: string, n: nat, directory: bool)
    requires 0 < |name| && Units(name) <= MAX_UNITS && n <= MAX_SUFFIX
    ensures Units(WithSuffix(name, n, directory)) <= 252
  {
    var stem, extension := Stem(name, directory), Extension(name, directory);
    var allowed := Monus(MAX_UNITS, Units(Suffix(n)) + Units(extension));
    var head := Truncate(stem, allowed);
    assert Units(Suffix(n)) <= 13 by { SuffixShape(n); TenDigits(n); }
    assert Units(extension) < MAX_UNITS by { NameParts(name, directory); }
    assert Units(head) <= allowed by { TruncateBounds(stem, allowed); }
    assert Units(WithSuffix(name, n, directory)) == Units(head) + Units(Suffix(n)) + Units(extension) by {
      JoinedUnits(head, Suffix(n), extension);
    }
  }

  lemma CleanJoin(head: string, suffix: string, extension: string)
    requires Clean(head) && Clean(suffix) && Clean(extension)
    ensures Clean(head + suffix + extension)
  {
  }

  lemma CleanParts(name: string, directory: bool, max: nat)
    requires Clean(name)
    ensures Clean(Truncate(Stem(name, directory), max)) && Clean(Extension(name, directory))
  {
    TruncateBounds(Stem(name, directory), max);
  }

  /** A name that had to be numbered is at most 252 units long and still a valid segment. */
  lemma NumberedSegment(name: string, n: nat, directory: bool)
    requires Clean(name) && 0 < |name| && Units(name) <= MAX_UNITS && n <= MAX_SUFFIX
    ensures var r := WithSuffix(name, n, directory);
            Clean(r) && SegmentOk(r) && Units(r) <= 252
  {
    var extension := Extension(name, directory);
    var allowed := Monus(MAX_UNITS, Units(Suffix(n)) + Units(extension));
    var head := Truncate(Stem(name, directory), allowed);
    NumberedUnits(name, n, directory);
    SuffixShape(n);
    CleanParts(name, directory, allowed);
    CleanJoin(head, Suffix(n), extension);
    LongSegment(head, Suffix(n), extension);
  }

  lemma LongSegment(head: string, suffix: string, extension: string)
    requires |suffix| > 2 && Clean(head + suffix + extension) && Units(head + suffix + extension) <= 255
    ensures SegmentOk(head + suffix + extension)
  {
  }

  lemma {:induction false} NoDotAtAll(name: string, i: nat)
    requires i <= |name| && forall k :: 0 < k < i ==> name[k] != '.'
    ensures StemLength(name, i) == |name|
    decreases i
  {
    if i > 0 {
      NoDotAtAll(name, i - 1);
    }
  }

  /** The extension is the last dot and what follows it, unless the name starts there; a directory has none. */
  lemma PartsOf(stem: string, extension: string, directory: bool)
    requires stem != []
    requires if extension == [] then directory || forall k :: 0 < k < |stem| ==> stem[k] != '.'
             else !directory && extension[0] == '.' && forall k :: 0 < k < |extension| ==> extension[k] != '.'
    ensures Stem(stem + extension, directory) == stem && Extension(stem + extension, directory) == extension
  {
    var name := stem + extension;
    if extension == [] {
      assert name == stem;
      if !directory {
        NoDotAtAll(name, |name|);
      }
    } else {
      assert name[|stem|] == '.' && forall k :: |stem| < k < |name| ==> name[k] == extension[k - |stem|];
      NoDotBefore(name, |name|, |stem|);
    }
  }

  /** The number goes between stem and extension; the stem is cut only as far as 240 units make it. */
  lemma NumberedForm(stem: string, extension: string, n: nat, directory: bool)
    requires stem != []
    requires if extension == [] then directory || forall k :: 0 < k < |stem| ==> stem[k] != '.'
             else !directory && extension[0] == '.' && forall k :: 0 < k < |extension| ==> extension[k] != '.'
    ensures var number := " (" + Digits(n) + ")";
            var r, max := WithSuffix(stem + extension, n, directory), Monus(240, Units(number) + Units(extension));
            && r == Truncate(stem, max) + number + extension
            && (Units(stem + number + extension) <= 240 ==> r == stem + number + extension)
  {
    PartsOf(stem, extension, directory);
    JoinedUnits(stem, Suffix(n), extension);
    if Units(stem + Suffix(n) + extension) <= 240 {
      ShortIsKept(stem, 240 - Units(Suffix(n)) - Units(extension));
    }
  }

  /** A numbered name keeps to 240 units exactly when its number and extension leave room. */
  lemma NumberedFitsIff(name: string, n: nat, directory: bool)
    requires 0 < |name| && Units(name) <= MAX_UNITS
    ensures Units(WithSuffix(name, n, directory)) <= MAX_UNITS
            <==> Units(Suffix(n)) + Units(Extension(name, directory)) <= MAX_UNITS
  {
    var extension := Extension(name, directory);
    var allowed := Monus(MAX_UNITS, Units(Suffix(n)) + Units(extension));
    var head := Truncate(Stem(name, directory), allowed);
    TruncateBounds(Stem(name, directory), allowed);
    JoinedUnits(head, Suffix(n), extension);
  }

  /** The name `a.bbb...` with an extension of `k` letters. */
  function LongExtension(k: nat): string { "a." + seq(k, _ => 'b') }

  lemma {:induction false} CleanIsKept(s: string)
    requires Clean(s)
    ensures Replaced(s) == s
  {
    if s != [] {
      CleanIsKept(s[1..]);
    }
  }

  lemma {:induction false} ShortIsKept(s: string, max: nat)
    requires Units(s) <= max
    ensures Truncate(s, max) == s
  {
    TruncateBounds(s, max);
    if s != [] {
      ShortIsKept(s[1..], max - UnitsOf(s[0]));
    }
  }

  lemma {:induction false} NoDotBefore(name: string, i: nat, dot: nat)
    requires dot < i <= |name| && name[dot] == '.' && dot > 0 && forall k :: dot < k < i ==> name[k] != '.'
    ensures StemLength(name, i) == dot
    decreases i
  {
    if i - 1 != dot {
      NoDotBefore(name, i - 1, dot);
    }
  }

  lemma LongExtensionIsFree(k: nat)
    ensures !IsReserved(LongExtension(k))
  {
    var name := LongExtension(k);
    assert BeforeDot(name) == "a" by {
      assert name[1..][0] == '.' && BeforeDot(name[1..]) == [];
    }
    assert TrimEnd("a") == "a" && Upper("a") == "A";
  }

  lemma LongExtensionUnits(k: nat)
    requires k > 0
    ensures var name := LongExtension(k); Clean(name) && Units(name) == k + 2 && Units(Extension(name, false)) == k + 1
  {
    var name := LongExtension(k);
    AsciiUnits(name);
    NoDotBefore(name, |name|, 1);
    AsciiUnits(name[1..]);
  }

  /** A name that needs nothing is left as it is. */
  lemma AcceptableIsKept(s: string)
    requires Clean(s) && s != [] && s[|s| - 1] != ' ' && s[|s| - 1] != '.' && Units(s) <= MAX_UNITS && !IsReserved(s)
    ensures Sanitize(s) == s
  {
    OwnName(s);
    SanitizedForm(s);
    ShortIsKept(s, MAX_UNITS);
  }

  lemma LongExtensionIsKept(k: nat)
    requires 0 < k <= 238
    ensures Sanitize(LongExtension(k)) == LongExtension(k)
  {
    var name := LongExtension(k);
    LongExtensionUnits(k);
    LongExtensionIsFree(k);
    assert name[|name| - 1] == 'b';
    AcceptableIsKept(name);
  }

  /** With a long extension it is a sanitized name that every number makes longer than 240 units. */
  lemma LongExtensionOverflows(k: nat, n: nat)
    requires 236 <= k <= 238
    ensures var name := LongExtension(k);
            Sanitize(name) == name && Units(name) <= MAX_UNITS && Units(WithSuffix(name, n, false)) > MAX_UNITS
  {
    LongExtensionIsKept(k);
    LongExtensionUnits(k);
    SuffixShape(n);
    NumberedFitsIff(LongExtension(k), n, false);
  }

  lemma {:induction false} BeforeDotAppend(s: string, t: string)
    ensures '.' in s ==> BeforeDot(s + t) == BeforeDot(s)
    ensures '.' !in s ==> BeforeDot(s + t) == s + BeforeDot(t)
  {
    if s == [] {
      assert s + t == t;
    } else if s[0] != '.' {
      var rest := s[1..];
      assert (s + t)[1..] == rest + t && (s + t)[0] == s[0] && s == [s[0]] + rest;
      BeforeDotAppend(rest, t);
    }
  }

  lemma {:induction false} UpperLast(s: string, c: char)
    ensures Upper(s + [c]) == Upper(s) + [AsciiUpper(c)]
  {
    if s == [] {
      assert s + [c] == [c];
    } else {
      assert (s + [c])[1..] == s[1..] + [c];
      UpperLast(s[1..], c);
    }
  }

  lemma UnderscoreFreesStem(s: string)
    requires '.' !in s
    ensures !IsReserved(s + "_")
  {
    BeforeDotAppend(s, "_");
    assert BeforeDot("_") == "_";
    assert TrimEnd(s + "_") == s + "_";
    UpperLast(s, '_');
    var upper := Upper(s) + "_";
    assert upper[|upper| - 1] == '_';
  }

  lemma ExtensionKeepsStem(s: string)
    requires '.' in s
    ensures IsReserved(s + "_") <==> IsReserved(s)
  {
    BeforeDotAppend(s, "_");
  }

  lemma {:induction false} CutBeforeTail(s: string, t: string, max: nat)
    requires Units(s) >= max
    ensures Truncate(s + t, max) == Truncate(s, max)
  {
    if s == [] {
      assert s + t == t;
    } else if UnitsOf(s[0]) <= max {
      assert (s + t)[1..] == s[1..] + t;
      CutBeforeTail(s[1..], t, max - UnitsOf(s[0]));
    }
  }

  /** A short name gets its underscore, a long one loses it when it is cut. */
  lemma SanitizedForm(segment: string)
    ensures var n := Named(segment);
            Sanitize(segment) == if Units(n) >= MAX_UNITS then Truncate(n, MAX_UNITS)
                                 else if IsReserved(n) then n + "_" else n
  {
    var n := Named(segment);
    UnitsConcat(n, "_");
    assert Units("_") == 1;
    if Units(n) >= MAX_UNITS {
      CutBeforeTail(n, "_", MAX_UNITS);
    } else {
      ShortIsKept(n, MAX_UNITS);
      ShortIsKept(n + "_", MAX_UNITS);
    }
  }

  lemma UnderscoreHelpsIffNoExtension(n: string)
    ensures IsReserved(n + "_") <==> IsReserved(n) && '.' in n
  {
    if '.' in n {
      ExtensionKeepsStem(n);
    } else {
      UnderscoreFreesStem(n);
    }
  }

  /**
   Exactly when a sanitized segment is still reserved: a short one when it was reserved and
   has an extension, because the stem is what is reserved; a long one when its cut is,
   because it is cut after the check.
   */
  lemma ReservedAfterSanitizingIff(segment: string)
    ensures var n := Named(segment);
            IsReserved(Sanitize(segment))
            <==> if Units(n) < MAX_UNITS then IsReserved(n) && '.' in n else IsReserved(Truncate(n, MAX_UNITS))
  {
    SanitizedForm(segment);
    UnderscoreHelpsIffNoExtension(Named(segment));
  }

  /** A clean segment that does not end in a space or a dot is its own name. */
  lemma OwnName(s: string)
    requires Clean(s) && s != [] && s[|s| - 1] != ' ' && s[|s| - 1] != '.'
    ensures Named(s) == s
  {
    CleanIsKept(s);
  }

  lemma ConIsReserved(s: string)
    requires s == "CON.txt"
    ensures IsReserved(s)
  {
    var t, u, v := s[1..], s[2..], s[3..];
    assert t[1..] == u && u[1..] == v && v[0] == '.';
    assert BeforeDot(u) == ['N'] + BeforeDot(v) == "N";
    assert BeforeDot(t) == ['O'] + BeforeDot(u) == "ON";
    assert BeforeDot(s) == ['C'] + BeforeDot(t) == "CON";
    assert "CON"[1..] == "ON" && "ON"[1..] == "N" && "N"[1..] == "";
    assert TrimEnd("CON") == "CON" && Upper("CON") == "CON";
  }

  /** `CON.txt` becomes `CON.txt_`. */
  lemma ReservedStemExample(s: string)
    requires s == "CON.txt"
    ensures Sanitize(s) == s + "_" && IsReserved(Sanitize(s))
  {
    ConIsReserved(s);
    AsciiUnits(s);
    assert s[3] == '.';
    OwnName(s);
    SanitizedForm(s);
    ExtensionKeepsStem(s);
  }

  function Spaces(k: nat): string { seq(k, _ => ' ') }

  lemma {:induction false} TrimSpaces(s: string, k: nat)
    ensures TrimEnd(s + Spaces(k)) == TrimEnd(s)
  {
    if k == 0 {
      assert s + Spaces(0) == s;
    } else {
      var all := s + Spaces(k);
      assert all[|all| - 1] == ' ' && all[..|all| - 1] == s + Spaces(k - 1);
      TrimSpaces(s, k - 1);
    }
  }

  lemma SpacedStemIsReserved(s: string, k: nat)
    requires s == "CON"
    ensures IsReserved(s + Spaces(k))
  {
    assert '.' !in s + Spaces(k);
    BeforeDotAppend(s + Spaces(k), []);
    assert s + Spaces(k) + [] == s + Spaces(k);
    TrimSpaces(s, k);
    assert "CON"[1..] == "ON" && "ON"[1..] == "N" && "N"[1..] == "";
    assert TrimEnd("CON") == "CON" && Upper("CON") == "CON";
  }

  lemma {:induction false} UpperLength(s: string)
    ensures |Upper(s)| == |s|
  {
    if s != [] {
      UpperLength(s[1..]);
    }
  }

  lemma LongStemIsFree(s: string)
    requires '.' !in s && |s| > 4 && !IsWhite(s[|s| - 1])
    ensures !IsReserved(s)
  {
    BeforeDotAppend(s, []);
    assert s + [] == s;
    assert TrimEnd(s) == s;
    UpperLength(s);
  }

  /** `CON`, spaces up to the limit and one more letter: not reserved, and reserved once it is cut. */
  lemma CutStemExample(s: string, k: nat)
    requires s == "CON" && k == MAX_UNITS - 3
    ensures var long := s + Spaces(k) + "x";
            !IsReserved(long) && SegmentOk(long) && Sanitize(long) == s + Spaces(k) && IsReserved(Sanitize(long))
  {
    var long := s + Spaces(k) + "x";
    LongStemIsFree(long);
    AsciiUnits(long);
    AsciiUnits(s + Spaces(k));
    OwnName(long);
    SanitizedForm(long);
    CutBeforeTail(s + Spaces(k), "x", MAX_UNITS);
    ShortIsKept(s + Spaces(k), MAX_UNITS);
    SpacedStemIsReserved(s, k);
  }

  // ---------------------------------------------------------------------------
  // Letter case
  // ---------------------------------------------------------------------------

  type Casing = char -> string

  ghost predicate LowerCases(lower: Casing) {
    forall c: char :: IsDigit(c) || c == ' ' || c == '(' || c == ')' ==> lower(c) == [c]
  }

  function Lower(lower: Casing, s: string): string {
    if s == [] then [] else lower(s[0]) + Lower(lower, s[1..])
  }

  lemma {:induction false} LowerConcat(lower: Casing, a: string, b: string)
    ensures Lower(lower, a + b) == Lower(lower, a) + Lower(lower, b)
  {
    if a == [] {
      assert a + b == b;
    } else {
      assert (a + b)[1..] == a[1..] + b;
      LowerConcat(lower, a[1..], b);
    }
  }

  lemma {:induction false} LowerIdentity(lower: Casing, s: string)
    requires forall i :: 0 <= i < |s| ==> lower(s[i]) == [s[i]]
    ensures Lower(lower, s) == s
  {
    if s != [] {
      LowerIdentity(lower, s[1..]);
    }
  }

  lemma LowerNumbered(lower: Casing, name: string, n: nat, directory: bool) returns (head: string)
    requires LowerCases(lower)
    ensures Lower(lower, WithSuffix(name, n, directory)) == head + Suffix(n) + Lower(lower, Extension(name, directory))
  {
    var extension := Extension(name, directory);
    var stem := Truncate(Stem(name, directory), Monus(MAX_UNITS, Units(Suffix(n)) + Units(extension)));
    DigitsOf(n);
    LowerIdentity(lower, Suffix(n));
    LowerConcat(lower, stem + Suffix(n), extension);
    LowerConcat(lower, stem, Suffix(n));
    head := Lower(lower, stem);
  }

  lemma NotShorter(a: string, b: string, x: string, y: string)
    requires a + " (" + x + ")" == b + " (" + y + ")" && forall i :: 0 <= i < |y| ==> IsDigit(y[i])
    ensures |x| >= |y|
  {
    var s := a + " (" + x + ")";
    assert s[|a| + 1] == '(';
    assert forall i :: 0 <= i < |y| ==> s[|b| + 2 + i] == y[i];
  }

  /** The digits between the last opening parenthesis and the closing one are determined. */
  lemma LastNumber(a: string, b: string, n: nat, m: nat)
    requires a + Suffix(n) == b + Suffix(m)
    ensures n == m
  {
    var x, y := Digits(n), Digits(m);
    DigitsOf(n);
    DigitsOf(m);
    assert a + " (" + x + ")" == a + Suffix(n) == b + " (" + y + ")";
    NotShorter(a, b, x, y);
    NotShorter(b, a, y, x);
    assert x == (a + Suffix(n))[|a| + 2..|a| + 2 + |x|];
    assert y == (b + Suffix(m))[|b| + 2..|b| + 2 + |y|];
  }

  /** Candidates with different numbers differ even after lower-casing. */
  lemma CandidatesDiffer(lower: Casing, name: string, n: nat, m: nat, directory: bool)
    requires LowerCases(lower) && n != m
    ensures Lower(lower, WithSuffix(name, n, directory)) != Lower(lower, WithSuffix(name, m, directory))
  {
    var extension := Lower(lower, Extension(name, directory));
    var a := LowerNumbered(lower, name, n, directory);
    var b := LowerNumbered(lower, name, m, directory);
    if a + Suffix(n) + extension == b + Suffix(m) + extension {
      var s := a + Suffix(n) + extension;
      assert a + Suffix(n) == s[..|s| - |extension|] == b + Suffix(m);
      LastNumber(a, b, n, m);
    }
  }

  // ---------------------------------------------------------------------------
  // Reservation
  // ---------------------------------------------------------------------------

  /** The lower-cased candidates with numbers up to `n`. */
  ghost function Tried(lower: Casing, name: string, n: nat, directory: bool): set<string> {
    if n == 0 then {} else Tried(lower, name, n - 1, directory) + {Lower(lower, WithSuffix(name, n, directory))}
  }

  lemma {:induction false} NotTried(lower: Casing, name: string, n: nat, m: nat, directory: bool)
    requires LowerCases(lower) && n < m
    ensures Lower(lower, WithSuffix(name, m, directory)) !in Tried(lower, name, n, directory)
  {
    if n > 0 {
      NotTried(lower, name, n - 1, m, directory);
      CandidatesDiffer(lower, name, n, m, directory);
    }
  }

  /** The candidates up to `n` are `n` different names. */
  lemma {:induction false} TriedSize(lower: Casing, name: string, n: nat, directory: bool)
    requires LowerCases(lower)
    ensures |Tried(lower, name, n, directory)| == n
  {
    if n > 0 {
      TriedSize(lower, name, n - 1, directory);
      NotTried(lower, name, n - 1, n, directory);
    }
  }

  lemma TriedWithin(lower: Casing, name: string, n: nat, directory: bool, used: set<string>)
    requires LowerCases(lower) && Tried(lower, name, n, directory) <= used
    ensures n <= |used|
  {
    TriedSize(lower, name, n, directory);
    assert used == Tried(lower, name, n, directory) + (used - Tried(lower, name, n, directory));
  }

  /** `name` with the first number whose lower-cased name is not in use. */
  ghost predicate FirstFree(lower: Casing, base: string, directory: bool, used: set<string>, name: string, n: nat) {
    && 1 <= n <= |used| + 1 && name == WithSuffix(base, n, directory)
    && Lower(lower, name) !in used && Tried(lower, base, n - 1, directory) <= used
  }

  /** Counts up until a candidate is free: by the pigeonhole principle at most |used| + 1 numbers. */
  method FindFree(lower: Casing, base: string, directory: bool, used: set<string>) returns (r: Option<string>, ghost n: nat)
    requires LowerCases(lower)
    ensures |used| < MAX_SUFFIX ==> r.Some?
    ensures r.Some? ==> FirstFree(lower, base, directory, used, r.value, n) && n <= MAX_SUFFIX
  {
    var number := 1;
    while number <= MAX_SUFFIX
      invariant 1 <= number && Tried(lower, base, number - 1, directory) <= used
      decreases MAX_SUFFIX + 1 - number
    {
      var candidate := WithSuffix(base, number, directory);
      if Lower(lower, candidate) !in used {
        TriedWithin(lower, base, number - 1, directory, used);
        return Some(candidate), number;
      }
      number := number + 1;
    }
    TriedWithin(lower, base, number - 1, directory, used);
    return None, 0;
  }

  /**
   The sanitized name if it is free, else the first free numbered one.  It is new up to
   letter case, short enough, and a valid segment.  `None` is the overflow of the 32-bit
   number, which takes as many names in use as there are numbers.
   */
  method PickName(lower: Casing, used: set<string>, desired: string, directory: bool) returns (r: Option<string>, ghost n: nat)
    requires LowerCases(lower)
    ensures |used| < MAX_SUFFIX ==> r.Some?
    ensures r.Some? ==> Lower(lower, r.value) !in used && Clean(r.value) && SegmentOk(r.value)
    ensures var base := Sanitize(desired);
            if Lower(lower, base) !in used then r == Some(base) && Units(base) <= MAX_UNITS
            else r.Some? ==> Units(r.value) <= 252 && FirstFree(lower, base, directory, used, r.value, n)
  {
    var base := Sanitize(desired);
    SanitizedSegment(desired);
    if Lower(lower, base) !in used { return Some(base), 0; }
    r, n := FindFree(lower, base, directory, used);
    if r.Some? {
      NumberedSegment(base, n, directory);
    }
  }

  class NameReservation {
    const lower: Casing
    var used: set<string>

    constructor (lower: Casing, existing: set<string>)
      ensures this.lower == lower && used == set e | e in existing :: Lower(lower, e)
    {
      this.lower := lower;
      used := set e | e in existing :: Lower(lower, e);
    }

    method Reserve(desired: string, directory: bool) returns (r: Option<string>, ghost n: nat)
      requires LowerCases(lower)
      modifies this
      ensures |old(used)| < MAX_SUFFIX ==> r.Some?
      ensures if r.None? then used == old(used)
              else
                && Lower(lower, r.value) !in old(used) && used == old(used) + {Lower(lower, r.value)}
                && SegmentOk(r.value) && Units(r.value) <= 252
      ensures var base := Sanitize(desired);
              if Lower(lower, base) !in old(used) then r == Some(base) && Units(base) <= MAX_UNITS
              else r.Some? ==> FirstFree(lower, base, directory, old(used), r.value, n)
    {
      r, n := PickName(lower, used, desired, directory);
      if r.Some? {
        used := used + {Lower(lower, r.value)};
      }
    }
  }
}
