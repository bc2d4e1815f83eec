/** Text as dumps use it: lines of words, with numbers and quoted strings among them. */
module Text {
  import opened Basics

  /** Unicode white space. */
  predicate IsSpace(c: char) {
    var n := c as int;
    9 <= n <= 13 || n == 0x20 || n == 0x85 || n == 0xA0 || n == 0x1680 || 0x2000 <= n <= 0x200A
    || n == 0x2028 || n == 0x2029 || n == 0x202F || n == 0x205F || n == 0x3000
  }

  /** Not empty, and without white space. */
  ghost predicate IsWord(s: string) {
    s != "" && forall i :: 0 <= i < |s| ==> !IsSpace(s[i])
  }

  // ---------------------------------------------------------------------------------------------
  // Words
  // ---------------------------------------------------------------------------------------------

  /** The length of the word at the start. */
  function WordEnd(s: string): (n: nat)
    ensures n <= |s|
    ensures s != "" && !IsSpace(s[0]) ==> n > 0
  {
    if s == "" || IsSpace(s[0]) then 0 else 1 + WordEnd(s[1..])
  }

  function Words(s: string): seq<string>
    decreases |s|
  {
    if s == "" then []
    else if IsSpace(s[0]) then Words(s[1..])
    else [s[..WordEnd(s)]] + Words(s[WordEnd(s)..])
  }

  function Join(words: seq<string>): string {
    if words == [] then "" else if |words| == 1 then words[0] else words[0] + " " + Join(words[1..])
  }

  lemma {:induction false} WordEndIs(w: string, rest: string)
    requires forall i :: 0 <= i < |w| ==> !IsSpace(w[i])
    requires rest == "" || IsSpace(rest[0])
    ensures WordEnd(w + rest) == |w|
  {
    if w == "" {
      assert w + rest == rest;
    } else {
      assert (w + rest)[1..] == w[1..] + rest;
      WordEndIs(w[1..], rest);
    }
  }

  /** Words joined by spaces are found again. */
  lemma {:induction false} WordsOfJoin(words: seq<string>)
    requires forall i :: 0 <= i < |words| ==> IsWord(words[i])
    ensures Words(Join(words)) == words
  {
    if words != [] {
      var w := words[0];
      assert IsWord(w);
      var rest := if |words| == 1 then "" else " " + Join(words[1..]);
      var line := Join(words);
      assert line == w + rest;
      WordEndIs(w, rest);
      assert line[0] == w[0] && line[..|w|] == w && line[|w|..] == rest;
      assert Words(line) == [w] + Words(rest);
      if |words| == 1 {
        assert Words(rest) == [];
        assert words == [w];
      } else {
        WordsOfJoin(words[1..]);
        assert rest[1..] == Join(words[1..]);
        assert Words(rest) == Words(rest[1..]);
        assert words == [w] + words[1..];
      }
    }
  }

  // ---------------------------------------------------------------------------------------------
  // Lines
  // ---------------------------------------------------------------------------------------------

  /** How many characters come before the next line break. */
  function LineEnd(s: string): (n: nat)
    ensures n <= |s|
  {
    if s == "" || s[0] == '\n' then 0 else 1 + LineEnd(s[1..])
  }

  function WithoutReturn(s: string): string {
    if s != "" && s[|s| - 1] == '\r' then s[..|s| - 1] else s
  }

  /** The lines of a text, without their line breaks; a return is part of a line break, but not of a last
      line that has none. */
  function Lines(s: string): seq<string>
    decreases |s|
  {
    if s == "" then []
    else
      var n := LineEnd(s);
      if n == |s| then [s] else [WithoutReturn(s[..n])] + Lines(s[n + 1..])
  }

  function Unlines(lines: seq<string>): string {
    if lines == [] then "" else lines[0] + "\n" + Unlines(lines[1..])
  }

  /** A line that stays one: no line break inside, no return at its end. */
  ghost predicate IsLine(s: string) {
    (forall i :: 0 <= i < |s| ==> s[i] != '\n') && (s != "" ==> s[|s| - 1] != '\r')
  }

  lemma {:induction false} LineEndIs(line: string, rest: string)
    requires forall i :: 0 <= i < |line| ==> line[i] != '\n'
    ensures LineEnd(line + "\n" + rest) == |line|
  {
    if line == "" {
      assert line + "\n" + rest == "\n" + rest;
    } else {
      assert (line + "\n" + rest)[1..] == line[1..] + "\n" + rest;
      LineEndIs(line[1..], rest);
    }
  }

  lemma {:induction false} LinesOfUnlines(lines: seq<string>)
    requires forall i :: 0 <= i < |lines| ==> IsLine(lines[i])
    ensures Lines(Unlines(lines)) == lines
  {
    if lines != [] {
      var line, rest := lines[0], Unlines(lines[1..]);
      assert IsLine(line);
      var all := line + "\n" + rest;
      assert Unlines(lines) == all;
      LineEndIs(line, rest);
      assert all[..|line|] == line && all[|line| + 1..] == rest;
      LinesOfUnlines(lines[1..]);
      assert lines == [line] + lines[1..];
    }
  }

  lemma {:induction false} UnlinesAppend(lines: seq<string>, line: string)
    ensures Unlines(lines + [line]) == Unlines(lines) + line + "\n"
  {
    if lines == [] {
      assert lines + [line] == [line];
      assert Unlines([line]) == line + "\n" + Unlines([line][1..]);
      assert [line][1..] == [];
    } else {
      assert (lines + [line])[0] == lines[0] && (lines + [line])[1..] == lines[1..] + [line];
      UnlinesAppend(lines[1..], line);
    }
  }

  function TrimStart(s: string): string {
    if s != "" && IsSpace(s[0]) then TrimStart(s[1..]) else s
  }

  function TrimEnd(s: string): string {
    if s != "" && IsSpace(s[|s| - 1]) then TrimEnd(s[..|s| - 1]) else s
  }

  function Trim(s: string): string {
    TrimEnd(TrimStart(s))
  }

  /** A joined line of words has nothing to trim. */
  lemma {:induction false} JoinIsTrimmed(words: seq<string>)
    requires words != [] && forall i :: 0 <= i < |words| ==> IsWord(words[i])
    ensures var s := Join(words);
            s != "" && IsWord(words[0]) && s[0] == words[0][0] && !IsSpace(s[|s| - 1]) && |s| >= |words[0]|
              && (|words| > 1 ==> |s| > |words[0]| + 1)
            && Trim(s) == s
  {
    assert IsWord(words[0]);
    if |words| > 1 {
      JoinIsTrimmed(words[1..]);
      var s, rest := Join(words), Join(words[1..]);
      assert s[|s| - 1] == rest[|rest| - 1];
    }
  }

  /** A joined line of words is a line. */
  lemma {:induction false} JoinIsLine(words: seq<string>)
    requires forall i :: 0 <= i < |words| ==> IsWord(words[i])
    ensures IsLine(Join(words))
  {
    if words != [] {
      assert IsWord(words[0]);
      JoinIsTrimmed(words);
      if |words| > 1 {
        JoinIsLine(words[1..]);
        var s, rest := Join(words), Join(words[1..]);
        assert s == words[0] + " " + rest;
        forall i | 0 <= i < |s|
          ensures s[i] != '\n'
        {
          if i > |words[0]| {
            assert s[i] == rest[i - |words[0]| - 1];
          }
        }
      }
    }
  }

  // ---------------------------------------------------------------------------------------------
  // Numbers
  // ---------------------------------------------------------------------------------------------

  function DigitChar(d: int): char
    requires 0 <= d <= 9
  {
    (d + 48) as char
  }

  predicate IsDigit(c: char) {
    48 <= c as int <= 57
  }

  function ShowNat(n: nat): (s: string)
    ensures |s| > 0
  {
    if n < 10 then [DigitChar(n)] else ShowNat(n / 10) + [DigitChar(n % 10)]
  }

  function ShowInt(n: int): string {
    if n < 0 then "-" + ShowNat(-n) else ShowNat(n)
  }

  /** The number a string of digits stands for. */
  function ParseNat(s: string): (n: Option<int>)
    ensures n.Some? ==> n.value >= 0
  {
    if s == "" then None
    else
      var c := s[|s| - 1];
      if !IsDigit(c) then None
      else if |s| == 1 then Some(c as int - 48)
      else
        var high := ParseNat(s[..|s| - 1]);
        if high == None then None else Some(high.value * 10 + c as int - 48)
  }

  const I64_MAX := 0x7FFF_FFFF_FFFF_FFFF

  predicate IsI64(n: int) {
    -I64_MAX - 1 <= n <= I64_MAX
  }

  /** A signed 64-bit number, or nothing if it is not one. */
  function ParseInt(s: string): Option<int> {
    if s == "" then None
    else
      var n := if s[0] == '-' then Negated(ParseNat(s[1..])) else if s[0] == '+' then ParseNat(s[1..]) else ParseNat(s);
      if n.Some? && IsI64(n.value) then n else None
  }

  function Negated(n: Option<int>): Option<int> {
    if n.Some? then Some(-n.value) else None
  }

  lemma {:induction false} ParseShowNat(n: nat)
    ensures ParseNat(ShowNat(n)) == Some(n as int)
    ensures forall i :: 0 <= i < |ShowNat(n)| ==> IsDigit(ShowNat(n)[i])
  {
    if n >= 10 {
      ParseShowNat(n / 10);
      var s := ShowNat(n);
      assert s[..|s| - 1] == ShowNat(n / 10);
    }
  }

  lemma {:induction false} DigitIsPlain(c: char)
    requires IsDigit(c)
    ensures !IsSpace(c) && c != '-' && c != '+' && c != '\'' && c != '_'
  {}

  lemma {:induction false} ShowNatIsWord(n: nat)
    ensures var s := ShowNat(n);
            IsWord(s) && s[0] != '-' && s[0] != '+' && s[0] != '\''
  {
    ParseShowNat(n);
    hide ShowNat;
    var s := ShowNat(n);
    forall i | 0 <= i < |s|
      ensures !IsSpace(s[i]) && s[i] != '-' && s[i] != '+' && s[i] != '\''
    {
      DigitIsPlain(s[i]);
    }
  }

  /** Numbers are read back as they were printed. */
  lemma {:induction false} ParseShowInt(n: int)
    requires IsI64(n)
    ensures ParseInt(ShowInt(n)) == Some(n)
    ensures IsWord(ShowInt(n)) && ShowInt(n)[0] != '\''
  {
    var m: nat := if n < 0 then -n else n;
    ParseShowNat(m);
    ShowNatIsWord(m);
    hide ShowNat, ParseNat, IsSpace, IsDigit;
    var s := ShowInt(n);
    if n < 0 {
      assert s[1..] == ShowNat(m) && s[0] == '-';
      MinusIsPlain();
    }
  }

  lemma {:induction false} MinusIsPlain()
    ensures !IsSpace('-')
  {}

  // ---------------------------------------------------------------------------------------------
  // Decimals
  // ---------------------------------------------------------------------------------------------

  type Magnitude = v: real | v >= 0.0

  /** A floating-point number: the sign is kept apart, as zero has one, too. */
  datatype Level = Level(negative: bool, size: Magnitude)

  function Value(v: Level): real {
    if v.negative then 0.0 - v.size else v.size
  }

  /** A number of hundredths printed with two decimals. */
  function ShowPositive(h: nat): string {
    ShowNat(h / 100) + "." + [DigitChar(h / 10 % 10), DigitChar(h % 10)]
  }

  function ParsePositive(s: string): (h: Option<int>)
    ensures h.Some? ==> h.value >= 0
  {
    var n := |s|;
    if n < 4 || s[n - 3] != '.' || !IsDigit(s[n - 2]) || !IsDigit(s[n - 1]) then None
    else
      var whole := ParseNat(s[..n - 3]);
      if whole == None then None
      else Some(whole.value * 100 + (s[n - 2] as int - 48) * 10 + (s[n - 1] as int - 48))
  }

  lemma {:induction false} ParseShowPositive(h: nat)
    ensures ParsePositive(ShowPositive(h)) == Some(h as int)
    ensures IsWord(ShowPositive(h)) && ShowPositive(h)[0] != '-' && ShowPositive(h)[0] != '\''
  {
    ParseShowNat(h / 100);
    ShowNatIsWord(h / 100);
    var s, whole := ShowPositive(h), ShowNat(h / 100);
    hide ShowNat, ParseNat;
    var n := |s|;
    assert n == |whole| + 3 && s[..n - 3] == whole && s[n - 3] == '.';
    assert s[n - 2] == DigitChar(h / 10 % 10) && s[n - 1] == DigitChar(h % 10);
    assert h == h / 100 * 100 + h / 10 % 10 * 10 + h % 10;
    forall i | 0 <= i < n
      ensures !IsSpace(s[i])
    {
      if i < n - 3 {
        assert s[i] == whole[i];
      }
    }
  }

  /** The nearest whole number of hundredths; of two equally near, the even one. */
  function Hundredths(v: Magnitude): (n: nat) {
    var x := v * 100.0;
    var n := x.Floor;
    if x - n as real < 0.5 || (x - n as real == 0.5 && n % 2 == 0) then n else n + 1
  }

  /** A number printed with two decimals. */
  function ShowDecimal(v: Level): string {
    if v.negative then "-" + ShowPositive(Hundredths(v.size)) else ShowPositive(Hundredths(v.size))
  }

  function ParseDecimal(s: string): Option<Level> {
    if s != "" && s[0] == '-' then Signed(true, ParsePositive(s[1..])) else Signed(false, ParsePositive(s))
  }

  function Signed(negative: bool, h: Option<int>): Option<Level>
    requires h.Some? ==> h.value >= 0
  {
    match h
    case None => None
    case Some(n) =>
      var m: nat := n;
      Some(Level(negative, m as real / 100.0))
  }

  /** What is left of a number that was printed. */
  function ToHundredths(v: Level): Level {
    Level(v.negative, Hundredths(v.size) as real / 100.0)
  }

  predicate IsWholeHundredths(v: Level) {
    v.size * 100.0 == (v.size * 100.0).Floor as real
  }

  /** A number is read back as it was printed, rounded, and with its sign. */
  lemma {:induction false} ParseShowDecimal(v: Level)
    ensures ParseDecimal(ShowDecimal(v)) == Some(ToHundredths(v))
    ensures IsWord(ShowDecimal(v)) && ShowDecimal(v)[0] != '\''
  {
    var m := Hundredths(v.size);
    ParseShowPositive(m);
    hide ShowPositive, ParsePositive, IsSpace, Hundredths;
    var s := ShowDecimal(v);
    if v.negative {
      assert s[1..] == ShowPositive(m) && s[0] == '-';
      MinusIsPlain();
    }
  }

  /** Rounding changes a number by half a hundredth at most, and not at all exactly if it is a whole number of
      hundredths. */
  lemma {:induction false} RoundingIsClose(v: Level)
    ensures -0.005 <= Value(ToHundredths(v)) - Value(v) <= 0.005
    ensures ToHundredths(v) == v <==> IsWholeHundredths(v)
  {
    var x, n := v.size * 100.0, Hundredths(v.size);
    assert -0.5 <= n as real - x <= 0.5;
    assert n as real / 100.0 == v.size <==> n as real == x;
  }

  /** What was printed and read is printed as it was, minus zero included. */
  lemma {:induction false} ShowsAgain(v: Level)
    ensures ShowDecimal(ToHundredths(v)) == ShowDecimal(v)
  {
    HundredthsOf(Hundredths(v.size));
    hide Hundredths, ShowPositive;
  }

  lemma {:induction false} HundredthsOf(m: nat)
    ensures Hundredths(m as real / 100.0) == m
  {}
}
