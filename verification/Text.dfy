/** Parsing and printing the scalar values configuration fields hold. */
module Text {
  import opened Wrappers

  const U8_MAX := 0xff
  const U16_MAX := 0xffff
  const U32_MAX := 0xffff_ffff
  const U64_MAX := 0xffff_ffff_ffff_ffff
  const I64_MAX := 0x7fff_ffff_ffff_ffff
  const I64_MIN := -0x8000_0000_0000_0000

  type u8 = n: int | 0 <= n <= U8_MAX
  type u16 = n: int | 0 <= n <= U16_MAX
  type u32 = n: int | 0 <= n <= U32_MAX
  type u64 = n: int | 0 <= n <= U64_MAX
  type i64 = n: int | I64_MIN <= n <= I64_MAX

  // ---- Decimal ----------------------------------------------------------------------------

  predicate IsDigit(c: char) {
    '0' <= c <= '9'
  }

  function DigitValue(c: char): (d: nat)
    requires IsDigit(c)
    ensures d <= 9
  {
    c as int - '0' as int
  }

  function DigitChar(d: nat): (c: char)
    requires d <= 9
    ensures IsDigit(c) && DigitValue(c) == d
  {
    ('0' as int + d) as char
  }

  // The number denoted by one or more digits, most significant first.
  function Decimal(s: string): Option<nat> {
    if s == "" || !IsDigit(s[|s| - 1]) then None
    else if |s| == 1 then Some(DigitValue(s[0]))
    else
      match Decimal(s[..|s| - 1])
      case Some(n) => Some(10 * n + DigitValue(s[|s| - 1]))
      case None => None
  }

  function ParseDigits(s: string, max: nat): Option<nat> {
    var n := Decimal(s);
    if n.Some? && n.value <= max then n else None
  }

  // `str::parse` for the unsigned integer types: one leading '+' is accepted, '-' never is.
  function ParseUnsigned(s: string, max: nat): (r: Option<nat>)
    ensures r.Some? ==> r.value <= max
  {
    if s != "" && s[0] == '+' then ParseDigits(s[1..], max) else ParseDigits(s, max)
  }

  // `str::parse` for `i64`.
  function ParseSigned(s: string): (r: Option<int>)
    ensures r.Some? ==> I64_MIN <= r.value <= I64_MAX
  {
    if s != "" && s[0] == '-' then
      var magnitude: Option<int> := ParseDigits(s[1..], -I64_MIN);
      if magnitude.None? then None else Some(-magnitude.value)
    else
      var magnitude: Option<int> := ParseUnsigned(s, I64_MAX);
      if magnitude.None? then None else Some(magnitude.value)
  }

  function PrintNat(n: nat): (s: string)
    ensures s != "" && IsDigit(s[0])
  {
    if n <= 9 then [DigitChar(n)] else PrintNat(n / 10) + [DigitChar(n % 10)]
  }

  function PrintInt(n: int): string {
    if n < 0 then "-" + PrintNat(-n) else PrintNat(n)
  }

  /** The digits printed for a number denote it. */
  lemma {:induction false} PrintedNatValue(n: nat)
    ensures Decimal(PrintNat(n)) == Some(n)
  {
    if n > 9 {
      PrintedNatValue(n / 10);
      var s := PrintNat(n);
      assert s[..|s| - 1] == PrintNat(n / 10);
    }
  }

  /** Printing an unsigned number and parsing it back gives the number. */
  lemma {:induction false} UnsignedRoundTrip(n: nat, max: nat)
    requires n <= max
    ensures ParseUnsigned(PrintNat(n), max) == Some(n)
  {
    PrintedNatValue(n);
    assert IsDigit(PrintNat(n)[0]);
  }

  lemma NegativeRoundTrip(n: int)
    requires I64_MIN <= n < 0
    ensures ParseSigned("-" + PrintNat(-n)) == Some(n)
  {
    hide PrintNat, Decimal;
    PrintedNatValue(-n);
    var s := "-" + PrintNat(-n);
    assert s[0] == '-' && s[1..] == PrintNat(-n);
  }

  /** Printing a signed 64-bit number and parsing it back gives the number. */
  lemma {:induction false} SignedRoundTrip(n: int)
    requires I64_MIN <= n <= I64_MAX
    ensures ParseSigned(PrintInt(n)) == Some(n)
  {
    hide PrintNat, Decimal;
    if n < 0 {
      NegativeRoundTrip(n);
    } else {
      UnsignedRoundTrip(n, I64_MAX);
      assert IsDigit(PrintNat(n)[0]);
    }
  }

  lemma {:induction false} ZeroLeads(s: string)
    requires s != ""
    ensures Decimal("0" + s) == Decimal(s)
  {
    if |s| > 1 {
      ZeroLeads(s[..|s| - 1]);
      assert ("0" + s)[..|s|] == "0" + s[..|s| - 1];
    } else {
      assert ("0" + s)[..1] == "0";
    }
  }

  /** A number may be written with a plus sign, and with zeros before it. */
  lemma PlusAndZerosAreRead(n: nat, max: nat)
    ensures ParseUnsigned("+" + PrintNat(n), max) == ParseUnsigned(PrintNat(n), max)
    ensures ParseUnsigned("0" + PrintNat(n), max) == ParseUnsigned(PrintNat(n), max)
    ensures n <= I64_MAX ==> ParseSigned("+" + PrintNat(n)) == Some(n)
  {
    var s := PrintNat(n);
    assert ("+" + s)[1..] == s && ("+" + s)[0] == '+' && IsDigit(s[0]);
    assert ("0" + s)[0] == '0';
    ZeroLeads(s);
    UnsignedRoundTrip(n, n);
  }

  // ---- Booleans ---------------------------------------------------------------------------

  function PrintBool(b: bool): string {
    if b then "true" else "false"
  }

  // `str::parse` for `bool`.
  function ParseBoolStrict(s: string): Option<bool> {
    if s == "true" then Some(true) else if s == "false" then Some(false) else None
  }

  // The characters with the Unicode property White_Space, which `str::trim` removes.
  predicate IsSpace(c: char) {
    var n := c as int;
    || 0x9 <= n <= 0xd || n == 0x20 || n == 0x85 || n == 0xa0 || n == 0x1680
    || 0x2000 <= n <= 0x200a || n == 0x2028 || n == 0x2029 || n == 0x202f || n == 0x205f || n == 0x3000
  }

  function TrimStart(s: string): string {
    if s != "" && IsSpace(s[0]) then TrimStart(s[1..]) else s
  }

  function TrimEnd(s: string): string {
    if s != "" && IsSpace(s[|s| - 1]) then TrimEnd(s[..|s| - 1]) else s
  }

  function Trim(s: string): string {
    TrimEnd(TrimStart(s))
  }

  // Lower-casing as far as it decides equality with the spellings below: no character outside
  // A-Z lower-cases to one of their letters.
  function LowerChar(c: char): char {
    if 'A' <= c <= 'Z' then (c as int + 32) as char else c
  }

  function Lower(s: string): string {
    if s == "" then "" else [LowerChar(s[0])] + Lower(s[1..])
  }

  function ParseBoolLenient(s: string): Option<bool> {
    var t := Lower(Trim(s));
    if t == "true" || t == "1" || t == "yes" || t == "on" then Some(true)
    else if t == "false" || t == "0" || t == "no" || t == "off" then Some(false)
    else None
  }

  lemma BoolRoundTrip(b: bool)
    ensures ParseBoolStrict(PrintBool(b)) == Some(b)
    ensures ParseBoolLenient(PrintBool(b)) == Some(b)
  {
    var s := PrintBool(b);
    assert s[0] == (if b then 't' else 'f') && s[|s| - 1] == 'e';
    assert Trim(s) == s;
    LowerKeeps(s);
    if !b {
      assert s[0] == 'f';
      assert s != "true" && s != "1" && s != "yes" && s != "on";
    }
  }

  lemma {:induction false} LowerKeeps(s: string)
    requires forall i :: 0 <= i < |s| ==> !('A' <= s[i] <= 'Z')
    ensures Lower(s) == s
  {
    if s != "" {
      LowerKeeps(s[1..]);
    }
  }

  // ---- Spellings of a boolean ---------------------------------------------------------------

  const TRUE_WORDS := {"true", "1", "yes", "on"}
  const FALSE_WORDS := {"false", "0", "no", "off"}

  // The same word, in letters of either case.
  predicate SameLetters(s: string, word: string) {
    |s| == |word| && forall i :: 0 <= i < |s| ==>
      s[i] == word[i] || ('A' <= s[i] <= 'Z' && s[i] as int + 32 == word[i] as int)
  }

  // Without capitals.
  predicate Small(word: string) {
    forall i :: 0 <= i < |word| ==> !('A' <= word[i] <= 'Z')
  }

  lemma {:induction false} LowerIs(s: string, word: string)
    requires Small(word)
    ensures Lower(s) == word <==> SameLetters(s, word)
  {
    LowerLength(s);
    if s != "" && word != "" {
      LowerIs(s[1..], word[1..]);
      assert word == [word[0]] + word[1..];
      if SameLetters(s[1..], word[1..]) {
        assert forall i :: 1 <= i < |s| ==> s[i] == s[1..][i - 1] && word[i] == word[1..][i - 1];
      }
      if SameLetters(s, word) {
        assert forall i :: 0 <= i < |s| - 1 ==> s[1..][i] == s[i + 1] && word[1..][i] == word[i + 1];
      }
    }
  }

  lemma {:induction false} LowerLength(s: string)
    ensures |Lower(s)| == |s|
  {
    if s != "" {
      LowerLength(s[1..]);
    }
  }

  // The code points with the property White_Space, one by one.
  const WHITE_SPACE: set<int> := {
    0x9, 0xa, 0xb, 0xc, 0xd, 0x20, 0x85, 0xa0, 0x1680, 0x2000, 0x2001, 0x2002, 0x2003, 0x2004, 0x2005, 0x2006,
    0x2007, 0x2008, 0x2009, 0x200a, 0x2028, 0x2029, 0x202f, 0x205f, 0x3000}

  lemma SpacesAreThose(c: char)
    ensures IsSpace(c) <==> c as int in WHITE_SPACE
  {
  }

  predicate Blank(s: string) {
    forall i :: 0 <= i < |s| ==> s[i] as int in WHITE_SPACE
  }

  lemma BlankIff(s: string)
    ensures Blank(s) <==> forall i :: 0 <= i < |s| ==> IsSpace(s[i])
  {
    hide IsSpace;
    forall i | 0 <= i < |s| ensures IsSpace(s[i]) <==> s[i] as int in WHITE_SPACE { SpacesAreThose(s[i]); }
  }

  // Neither begins nor ends with a space.
  predicate Bare(s: string) {
    s != "" ==> !IsSpace(s[0]) && !IsSpace(s[|s| - 1])
  }

  lemma {:induction false} TrimStartIs(s: string) returns (n: nat)
    ensures n <= |s| && forall k :: 0 <= k < n ==> IsSpace(s[k])
    ensures TrimStart(s) == s[n..] && (n < |s| ==> !IsSpace(s[n]))
  {
    if s != "" && IsSpace(s[0]) {
      var m := TrimStartIs(s[1..]);
      n := m + 1;
      assert forall k :: 1 <= k < n ==> s[k] == s[1..][k - 1];
    } else {
      n := 0;
    }
  }

  lemma {:induction false} TrimEndIs(s: string) returns (n: nat)
    ensures n <= |s| && forall k :: n <= k < |s| ==> IsSpace(s[k])
    ensures TrimEnd(s) == s[..n] && (n > 0 ==> !IsSpace(s[n - 1]))
  {
    if s != "" && IsSpace(s[|s| - 1]) {
      n := TrimEndIs(s[..|s| - 1]);
      assert forall k :: n <= k < |s| - 1 ==> s[k] == s[..|s| - 1][k];
    } else {
      n := |s|;
    }
  }

  // What is left of a text is the bare part between blanks.
  lemma TrimIs(s: string) returns (i: nat, j: nat)
    ensures i <= j <= |s| && Blank(s[..i]) && Blank(s[j..]) && Trim(s) == s[i..j] && Bare(s[i..j])
  {
    hide IsSpace;
    i := TrimStartIs(s);
    var n := TrimEndIs(s[i..]);
    j := i + n;
    assert forall k :: j <= k < |s| ==> s[k] == s[i..][k - i];
    assert s[i..][..n] == s[i..j];
    BlankIff(s[..i]);
    BlankIff(s[j..]);
  }

  // There is only one.
  lemma TrimmedIs(s: string, i: nat, j: nat)
    requires i < j <= |s| && Blank(s[..i]) && Blank(s[j..]) && Bare(s[i..j])
    ensures Trim(s) == s[i..j]
  {
    var m, n := TrimIs(s);
    assert s[i..j][0] == s[i] && s[i..j][j - i - 1] == s[j - 1];
    BlankAt(s, i, j);
    BlankAt(s, m, n);
    BareAt(s, m, n);
    assert m == i && n == j;
  }

  lemma BlankAt(s: string, i: nat, j: nat)
    requires i <= j <= |s| && Blank(s[..i]) && Blank(s[j..])
    ensures forall k :: 0 <= k < |s| && (k < i || j <= k) ==> IsSpace(s[k])
  {
    hide IsSpace, Blank;
    BlankIff(s[..i]);
    BlankIff(s[j..]);
    assert forall k :: 0 <= k < i ==> s[..i][k] == s[k];
    assert forall k :: j <= k < |s| ==> s[j..][k - j] == s[k];
  }

  lemma BareAt(s: string, i: nat, j: nat)
    requires i <= j <= |s| && Bare(s[i..j])
    ensures i < j ==> !IsSpace(s[i]) && !IsSpace(s[j - 1])
  {
    hide IsSpace;
    if i < j {
      assert s[i..j][0] == s[i] && s[i..j][j - i - 1] == s[j - 1];
    }
  }

  // Between blanks, in letters of any case, `s` spells one of the words.
  ghost predicate Spells(s: string, words: set<string>) {
    exists i, j, word :: 0 <= i <= j <= |s| && Blank(s[..i]) && Blank(s[j..]) && word in words
                         && SameLetters(s[i..j], word)
  }

  lemma WordsAreBare(s: string, word: string)
    requires word in TRUE_WORDS + FALSE_WORDS
    ensures Small(word) && word != "" && (SameLetters(s, word) ==> Bare(s))
  {
  }

  lemma SpellsIff(s: string, words: set<string>)
    requires words == TRUE_WORDS || words == FALSE_WORDS
    ensures Spells(s, words) <==> Lower(Trim(s)) in words
  {
    hide Trim, Lower, SameLetters, Bare, Blank, Small;
    var m, n := TrimIs(s);
    if Lower(Trim(s)) in words {
      var word := Lower(Trim(s));
      WordsAreBare(s[m..n], word);
      LowerIs(s[m..n], word);
    }
    if Spells(s, words) {
      var i, j, word :| 0 <= i <= j <= |s| && Blank(s[..i]) && Blank(s[j..]) && word in words
                        && SameLetters(s[i..j], word);
      WordsAreBare(s[i..j], word);
      LettersCount(s[i..j], word);
      TrimmedIs(s, i, j);
      LowerIs(s[i..j], word);
    }
  }

  lemma LettersCount(s: string, word: string)
    requires SameLetters(s, word)
    ensures |s| == |word|
  {
  }

  /** The spellings read as a flag: four words each, in letters of any case, with blanks around them. */
  lemma LenientReadsIff(s: string)
    ensures ParseBoolLenient(s) == Some(true) <==> Spells(s, TRUE_WORDS)
    ensures ParseBoolLenient(s) == Some(false) <==> Spells(s, FALSE_WORDS)
  {
    hide Spells;
    SpellsIff(s, TRUE_WORDS);
    SpellsIff(s, FALSE_WORDS);
    WordsApart();
  }

  lemma WordsApart()
    ensures TRUE_WORDS !! FALSE_WORDS
  {
    assert forall w :: w in TRUE_WORDS ==> w[0] == 't' || w[0] == '1' || w[0] == 'y' || w == "on";
    assert forall w :: w in FALSE_WORDS ==> w[0] == 'f' || w[0] == '0' || w[0] == 'n' || w == "off";
    assert |"on"| == 2 && |"off"| == 3;
  }

  lemma SignShows(n: int)
    ensures PrintInt(n) != "" && (PrintInt(n)[0] == '-' <==> n < 0)
  {
    assert IsDigit(PrintNat(if n < 0 then -n else n)[0]);
  }

  /** Different values print differently. */
  lemma {:induction false} PrintingIsInjective(a: int, b: int)
    requires I64_MIN <= a <= U64_MAX && I64_MIN <= b <= U64_MAX && PrintInt(a) == PrintInt(b)
    ensures a == b
  {
    SignShows(a);
    SignShows(b);
    if a >= 0 && b >= 0 {
      UnsignedRoundTrip(a, U64_MAX);
      UnsignedRoundTrip(b, U64_MAX);
    } else if a < 0 && b < 0 {
      SignedRoundTrip(a);
      SignedRoundTrip(b);
    }
  }

  // ---- Lengths ----------------------------------------------------------------------------

  function Utf8Bytes(c: char): nat {
    var n := c as int;
    if n < 0x80 then 1 else if n < 0x800 then 2 else if n < 0x1_0000 then 3 else 4
  }

  // `str::len`: the length of the UTF-8 encoding.
  function ByteLen(s: string): nat {
    if s == "" then 0 else Utf8Bytes(s[0]) + ByteLen(s[1..])
  }

  // The encoding of a character, section 3 of RFC 3629.
  function Utf8(c: char): seq<int> {
    var n := c as int;
    if n < 0x80 then [n]
    else if n < 0x800 then [0xc0 + n / 0x40, 0x80 + n % 0x40]
    else if n < 0x1_0000 then [0xe0 + n / 0x1000, 0x80 + n / 0x40 % 0x40, 0x80 + n % 0x40]
    else [0xf0 + n / 0x4_0000, 0x80 + n / 0x1000 % 0x40, 0x80 + n / 0x40 % 0x40, 0x80 + n % 0x40]
  }

  function Utf8All(s: string): seq<int> {
    if s == "" then [] else Utf8(s[0]) + Utf8All(s[1..])
  }

  /** The length of a text is the number of bytes of its encoding. */
  lemma {:induction false} ByteLenCounts(s: string)
    ensures ByteLen(s) == |Utf8All(s)|
  {
    if s != "" {
      ByteLenCounts(s[1..]);
    }
  }
}
