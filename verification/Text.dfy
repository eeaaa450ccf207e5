/** The string functions the program takes from its standard library, on ASCII case and Latin-1 white
    space. */
module Text {
  import opened Wrappers

  const SPACES: set<char> := {' ', '\t', '\n', '\r', '\U{000B}', '\U{000C}', '\U{0085}', '\U{00A0}'}

  // ----- Trimming -----

  function TrimLeft(s: string, cut: set<char>): string {
    if s != "" && s[0] in cut then TrimLeft(s[1..], cut) else s
  }

  function TrimRight(s: string, cut: set<char>): string {
    if s != "" && s[|s| - 1] in cut then TrimRight(s[..|s| - 1], cut) else s
  }

  function Trim(s: string, cut: set<char>): string {
    TrimRight(TrimLeft(s, cut), cut)
  }

  predicate Trimmed(s: string, cut: set<char>) {
    s == "" || (s[0] !in cut && s[|s| - 1] !in cut)
  }

  lemma {:induction false} TrimLeftClean(s: string, cut: set<char>)
    ensures TrimLeft(s, cut) != "" ==> TrimLeft(s, cut)[0] !in cut
    ensures |TrimLeft(s, cut)| <= |s|
    decreases |s|
  {
    if s != "" && s[0] in cut {
      TrimLeftClean(s[1..], cut);
    }
  }

  /** Right trimming takes a suffix off. */
  lemma {:induction false} TrimRightClean(s: string, cut: set<char>)
    ensures
      var t := TrimRight(s, cut);
      t <= s && (t != "" ==> t[|t| - 1] !in cut)
    decreases |s|
  {
    if s != "" && s[|s| - 1] in cut {
      TrimRightClean(s[..|s| - 1], cut);
    }
  }

  lemma TrimTrims(s: string, cut: set<char>)
    ensures Trimmed(Trim(s, cut), cut)
  {
    TrimLeftClean(s, cut);
    TrimRightClean(TrimLeft(s, cut), cut);
  }

  /** A printed character is no white space. */
  predicate Printed(c: char) {
    '!' <= c <= '~'
  }

  lemma PrintedIsTrimmed(s: string)
    requires s == "" || (Printed(s[0]) && Printed(s[|s| - 1]))
    ensures Trimmed(s, SPACES)
  {
  }

  lemma TrimFixed(s: string, cut: set<char>)
    requires Trimmed(s, cut)
    ensures Trim(s, cut) == s
  {
  }

  lemma TrimTwice(s: string, cut: set<char>)
    ensures Trim(Trim(s, cut), cut) == Trim(s, cut)
  {
    TrimTrims(s, cut);
    TrimFixed(Trim(s, cut), cut);
  }

  predicate All(s: string, cut: set<char>) {
    forall i | 0 <= i < |s| :: s[i] in cut
  }

  lemma {:induction false} TrimLeftAround(a: string, t: string, cut: set<char>)
    requires All(a, cut) && (t != "" ==> t[0] !in cut)
    ensures TrimLeft(a + t, cut) == t
    decreases |a|
  {
    if a == "" {
      assert a + t == t;
    } else {
      assert (a + t)[1..] == a[1..] + t;
      TrimLeftAround(a[1..], t, cut);
    }
  }

  lemma {:induction false} TrimRightAround(t: string, b: string, cut: set<char>)
    requires All(b, cut) && (t != "" ==> t[|t| - 1] !in cut)
    ensures TrimRight(t + b, cut) == t
    decreases |b|
  {
    if b == "" {
      assert t + b == t;
    } else {
      var n := |t + b| - 1;
      assert (t + b)[n] == b[|b| - 1] && (t + b)[..n] == t + b[..|b| - 1];
      TrimRightAround(t, b[..|b| - 1], cut);
    }
  }

  /** Trimming takes off what is around, and no more. */
  lemma TrimAround(a: string, t: string, b: string, cut: set<char>)
    requires All(a, cut) && All(b, cut) && t != "" && Trimmed(t, cut)
    ensures Trim(a + t + b, cut) == t
  {
    assert a + t + b == a + (t + b);
    TrimLeftAround(a, t + b, cut);
    TrimRightAround(t, b, cut);
  }

  predicate Blank(s: string) {
    Trim(s, SPACES) == ""
  }

  /** Blank is what has nothing but white space. */
  lemma BlankMeans(s: string)
    ensures Blank(s) <==> forall c <- s :: c in SPACES
  {
    TrimLeftAll(s, SPACES);
    TrimLeftClean(s, SPACES);
    var t := TrimLeft(s, SPACES);
    if t != "" {
      TrimRightSome(t, SPACES);
    }
  }

  lemma {:induction false} TrimLeftAll(s: string, cut: set<char>)
    ensures TrimLeft(s, cut) == "" <==> forall c <- s :: c in cut
    decreases |s|
  {
    if s != "" && s[0] in cut {
      TrimLeftAll(s[1..], cut);
    } else if s != "" {
      assert s[0] in s;
    }
  }

  lemma {:induction false} TrimRightSome(s: string, cut: set<char>)
    requires s != "" && s[0] !in cut
    ensures TrimRight(s, cut) != ""
    decreases |s|
  {
    if s[|s| - 1] in cut {
      TrimRightSome(s[..|s| - 1], cut);
    }
  }

  // ----- Case -----

  function LowerChar(c: char): char {
    if 'A' <= c <= 'Z' then c - 'A' + 'a' else c
  }

  function Lower(s: string): (t: string)
    ensures |t| == |s|
  {
    seq(|s|, i requires 0 <= i < |s| => LowerChar(s[i]))
  }

  predicate EqualFold(a: string, b: string) {
    Lower(a) == Lower(b)
  }

  lemma LowerTwice(s: string)
    ensures Lower(Lower(s)) == Lower(s)
  {
  }

  lemma LowerTrimmed(s: string)
    requires Trimmed(s, SPACES)
    ensures Trimmed(Lower(s), SPACES)
  {
  }

  // ----- Lists -----

  const SEPARATORS: set<char> := {',', ';', ' ', '\t', '\n', '\r'}

  /** The length of the word `s` starts with. */
  function WordLength(s: string): (n: nat)
    ensures n <= |s|
    ensures forall i | 0 <= i < n :: s[i] !in SEPARATORS
    ensures n < |s| ==> s[n] in SEPARATORS
  {
    if s == "" || s[0] in SEPARATORS then 0 else 1 + WordLength(s[1..])
  }

  /** The words between separators, none of them empty. */
  function SplitList(s: string): (words: seq<string>)
    ensures forall w <- words :: IsWord(w)
    decreases |s|
  {
    if s == "" then []
    else if s[0] in SEPARATORS then SplitList(s[1..])
    else [s[..WordLength(s)]] + SplitList(s[WordLength(s)..])
  }

  predicate IsWord(w: string) {
    w != "" && forall i | 0 <= i < |w| :: w[i] !in SEPARATORS
  }

  function Join(words: seq<string>, sep: string): string {
    if words == [] then ""
    else if |words| == 1 then words[0]
    else words[0] + sep + Join(words[1..], sep)
  }

  lemma WordFirst(w: string, rest: string)
    requires IsWord(w) && (rest == "" || rest[0] in SEPARATORS)
    ensures SplitList(w + rest) == [w] + SplitList(rest)
  {
    var n := WordLength(w + rest);
    assert forall i | 0 <= i < |w| :: (w + rest)[i] == w[i];
    assert rest != "" ==> (w + rest)[|w|] == rest[0];
    assert (w + rest)[..n] == w && (w + rest)[n..] == rest;
  }

  /** Joining words and splitting them again gives them back. */
  lemma {:induction false} SplitJoin(words: seq<string>)
    requires forall w <- words :: IsWord(w)
    ensures SplitList(Join(words, ", ")) == words
    decreases |words|
  {
    if |words| == 1 {
      WordFirst(words[0], "");
      assert words[0] + "" == words[0];
    } else if |words| > 1 {
      var rest := Join(words[1..], ", ");
      WordFirst(words[0], ", " + rest);
      assert words[0] + (", " + rest) == Join(words, ", ");
      assert (", " + rest)[1..] == " " + rest && (" " + rest)[1..] == rest;
      SplitJoin(words[1..]);
    }
  }

  // ----- Decimal numbers -----

  const MAX_INT := 0x7FFF_FFFF_FFFF_FFFF
  const MIN_INT := -0x8000_0000_0000_0000

  predicate IsDigit(c: char) {
    '0' <= c <= '9'
  }

  function Digit(n: nat): char
    requires n < 10
  {
    '0' + n as char
  }

  function Digits(n: nat): (s: string)
    ensures s != ""
  {
    if n < 10 then [Digit(n)] else Digits(n / 10) + [Digit(n % 10)]
  }

  function Itoa(n: int): string {
    if n < 0 then "-" + Digits(-n) else Digits(n)
  }

  predicate AllDigits(s: string) {
    forall i | 0 <= i < |s| :: IsDigit(s[i])
  }

  function Value(s: string): nat
    requires AllDigits(s)
  {
    if s == "" then 0
    else
      assert IsDigit(s[|s| - 1]);
      10 * Value(s[..|s| - 1]) + (s[|s| - 1] - '0') as nat
  }

  /** An optional sign and digits, within 64 bits. */
  function Atoi(s: string): Option<int> {
    var signed := s != "" && (s[0] == '-' || s[0] == '+');
    var digits := if signed then s[1..] else s;
    if digits == "" || !AllDigits(digits) then None
    else
      var v: int := Value(digits);
      var n := if signed && s[0] == '-' then -v else v;
      if MIN_INT <= n <= MAX_INT then Some(n) else None
  }

  lemma {:induction false} ValueOfDigits(n: nat)
    ensures AllDigits(Digits(n)) && Value(Digits(n)) == n
    decreases n
  {
    if n < 10 {
      assert Digits(n)[..0] == "";
    } else {
      ValueOfDigits(n / 10);
      assert Digits(n)[..|Digits(n)| - 1] == Digits(n / 10);
    }
  }

  lemma DigitsTrimmed(s: string)
    requires AllDigits(s) && s != ""
    ensures Trimmed(s, SPACES) && Trimmed("-" + s, SPACES)
  {
    assert IsDigit(s[0]) && IsDigit(s[|s| - 1]);
    assert forall c: char | IsDigit(c) :: c !in SPACES;
    assert ("-" + s)[|s|] == s[|s| - 1];
  }

  /** What is printed reads back as the same number, and is already trimmed. */
  lemma AtoiItoa(n: int)
    requires MIN_INT <= n <= MAX_INT
    ensures Atoi(Itoa(n)) == Some(n)
    ensures Trimmed(Itoa(n), SPACES) && Itoa(n) != ""
  {
    var digits := Digits(if n < 0 then -n else n);
    ValueOfDigits(if n < 0 then -n else n);
    DigitsTrimmed(digits);
    hide Trimmed, Digits, Value;
    if n < 0 {
      assert Itoa(n)[1..] == digits;
    } else {
      assert IsDigit(digits[0]);
    }
  }

  /** What a text says as a number: an optional sign and at least one digit. */
  ghost predicate Says(s: string, sign: string, digits: string, n: int) {
    && s == sign + digits && sign in {"", "+", "-"}
    && digits != "" && (forall c <- digits :: c in "0123456789")
    && AllDigits(digits) && n == (if sign == "-" then -1 else 1) * Value(digits)
  }

  /** Just the texts that say a number within 64 bits are read, and as that number. */
  lemma AtoiExactly(s: string, n: int)
    ensures Atoi(s) == Some(n) <==> MIN_INT <= n <= MAX_INT && exists sign, digits :: Says(s, sign, digits, n)
  {
    if Atoi(s) == Some(n) {
      var signed := s != "" && (s[0] == '-' || s[0] == '+');
      var sign, digits := if signed then [s[0]] else "", if signed then s[1..] else s;
      DigitsAre(digits);
      assert s == sign + digits;
      assert Says(s, sign, digits, n);
    }
    if sign, digits :| Says(s, sign, digits, n) {
      if sign == "" {
        assert s == digits;
        assert IsDigit(digits[0]);
      } else {
        assert s[1..] == digits && s[0] == sign[0];
      }
    }
    hide Value;
  }

  lemma DigitsAre(s: string)
    ensures AllDigits(s) ==> forall c <- s :: c in "0123456789"
  {
    if AllDigits(s) {
      forall i | 0 <= i < |s| ensures s[i] in "0123456789" {
        assert "0123456789"[s[i] as int - 48] == s[i];
      }
    }
  }
}
