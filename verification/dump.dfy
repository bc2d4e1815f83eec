/** Writing the game state as a text dump, and reading it back. */
module Dump {
  import opened Basics
  import opened Text

  datatype Error =
    | EmptyInput | BadHeader | BadTimestamp | NoFields | FieldCount(got: nat, expected: nat)
    | MissingField(key: string) | BadNumber(key: string) | UnknownType(kind: string)

  datatype Result<T> = Ok(value: T) | Err(error: Error) {
    predicate IsFailure() {
      Err?
    }

    function PropagateFailure<U>(): Result<U>
      requires Err?
    {
      Err(error)
    }

    function Extract(): T
      requires Ok?
    {
      value
    }
  }

  // ---------------------------------------------------------------------------------------------
  // Values
  // ---------------------------------------------------------------------------------------------

  /** A value of a record: a number, a string, a group letter, or a decimal. */
  datatype Cell = Num(n: int) | Str(s: string) | Letter(c: char) | Dec(v: Level)

  function Replaced(s: string, a: char, b: char): (r: string)
    ensures |r| == |s| && forall i :: 0 <= i < |s| ==> r[i] == if s[i] == a then b else s[i]
  {
    seq(|s|, i requires 0 <= i < |s| => if s[i] == a then b else s[i])
  }

  function QuoteStr(s: string): string {
    "'" + Replaced(s, ' ', '_') + "'"
  }

  function Unquote(s: string): string {
    if |s| >= 2 && s[0] == '\'' && s[|s| - 1] == '\'' then Replaced(s[1..|s| - 1], '_', ' ') else s
  }

  function FmtChar(c: char): string {
    if c == ' ' || c == '\0' then "-" else [c]
  }

  function CharOf(s: string): char {
    if s == "-" || s == "" then ' ' else s[0]
  }

  function Token(c: Cell): string {
    match c
    case Num(n) => ShowInt(n)
    case Str(s) => QuoteStr(s)
    case Letter(c) => FmtChar(c)
    case Dec(v) => ShowDecimal(v)
  }

  /** A value that a dump can hold: no white space but spaces, no number wider than 64 bits. */
  ghost predicate Holds(c: Cell) {
    match c
    case Num(n) => IsI64(n)
    case Str(s) => forall i :: 0 <= i < |s| ==> s[i] == ' ' || !IsSpace(s[i])
    case Letter(c) => c == ' ' || !IsSpace(c)
    case Dec(_) => true
  }

  /** A string that was written and read: underscores have become spaces. */
  function Respaced(s: string): string {
    Replaced(s, '_', ' ')
  }

  /** A letter that was written and read: a dash, or none, has become a space. */
  function Relettered(c: char): char {
    if c == '-' || c == '\0' then ' ' else c
  }

  /** What a value is when it was written and read. */
  function Reread(c: Cell): Cell {
    match c
    case Str(s) => Str(Respaced(s))
    case Letter(c) => Letter(Relettered(c))
    case Dec(v) => Dec(ToHundredths(v))
    case Num(_) => c
  }

  lemma {:induction false} UnquoteQuote(s: string)
    ensures Unquote(QuoteStr(s)) == Respaced(s)
  {
    var q := QuoteStr(s);
    assert q[1..|q| - 1] == Replaced(s, ' ', '_');
    assert Replaced(Replaced(s, ' ', '_'), '_', ' ') == Respaced(s);
  }

  lemma {:induction false} TokenIsWord(c: Cell)
    requires Holds(c)
    ensures IsWord(Token(c))
  {
    match c
    case Num(n) => ParseShowInt(n);
    case Str(s) =>
    case Letter(c) =>
    case Dec(v) => ParseShowDecimal(v);
  }

  /** A value that was read is written as it was. */
  lemma {:induction false} RereadToken(c: Cell)
    requires Holds(c)
    ensures Token(Reread(c)) == Token(c) && Holds(Reread(c))
  {
    if c.Dec? {
      ShowsAgain(c.v);
      hide ShowDecimal, ToHundredths;
    }
    if c.Str? {
      assert Replaced(Respaced(c.s), ' ', '_') == Replaced(c.s, ' ', '_');
    }
  }

  /** What survives: a string exactly when it has no underscore, a letter when it is neither a dash nor none,
      a decimal when it is a whole number of hundredths. */
  lemma {:induction false} RereadIsSame(c: Cell)
    ensures Reread(c) == c <==> match c
                                case Str(s) => '_' !in s
                                case Letter(c) => c != '-' && c != '\0'
                                case Dec(v) => IsWholeHundredths(v)
                                case Num(_) => true
  {
    if c.Dec? {
      RoundingIsClose(c.v);
    }
    if c.Str? {
      if '_' in c.s {
        var i :| 0 <= i < |c.s| && c.s[i] == '_';
        assert Respaced(c.s)[i] == ' ';
      } else {
        assert Respaced(c.s) == c.s;
      }
    }
  }

  // ---------------------------------------------------------------------------------------------
  // Writing
  // ---------------------------------------------------------------------------------------------

  function Tokens(cells: seq<Cell>): (r: seq<string>)
    ensures |r| == |cells| && forall i :: 0 <= i < |r| ==> r[i] == Token(cells[i])
  {
    seq(|cells|, i requires 0 <= i < |cells| => Token(cells[i]))
  }

  function Header(kind: string, ts: int): string {
    "XDUMP" + " " + (kind + " " + ShowInt(ts))
  }

  function Footer(count: nat): seq<string> {
    ["/", ShowNat(count) + " records"]
  }

  function RowLines(rows: seq<seq<Cell>>): (r: seq<string>)
    ensures |r| == |rows| && forall i :: 0 <= i < |r| ==> r[i] == Join(Tokens(rows[i]))
  {
    seq(|rows|, i requires 0 <= i < |rows| => Join(Tokens(rows[i])))
  }

  function DumpLines(kind: string, ts: int, fields: seq<string>, rows: seq<seq<Cell>>): seq<string> {
    [Header(kind, ts), Join(fields)] + RowLines(rows) + Footer(|rows|)
  }

  /** A whole dump. */
  function DumpText(kind: string, ts: int, fields: seq<string>, rows: seq<seq<Cell>>): string {
    Unlines(DumpLines(kind, ts, fields, rows))
  }

  lemma {:induction false} UnlinesConcat(a: seq<string>, b: seq<string>)
    ensures Unlines(a + b) == Unlines(a) + Unlines(b)
  {
    if a == [] {
      assert a + b == b;
    } else {
      assert (a + b)[0] == a[0] && (a + b)[1..] == a[1..] + b;
      UnlinesConcat(a[1..], b);
    }
  }

  /** Appends header, field names, rows and footer to a buffer. */
  method WriteDump(kind: string, ts: int, fields: seq<string>, rows: seq<seq<Cell>>) returns (out: string)
    ensures out == DumpText(kind, ts, fields, rows)
  {
    hide Join, Tokens, ShowNat;
    ghost var top := [Header(kind, ts), Join(fields)];
    out := Header(kind, ts) + "\n";
    out := out + Join(fields) + "\n";
    assert top[1..] == [Join(fields)] && [Join(fields)][1..] == [];
    assert Unlines([Join(fields)]) == Join(fields) + "\n";
    assert Unlines(top) == out;
    for i := 0 to |rows|
      invariant out == Unlines(top + RowLines(rows)[..i])
    {
      var line := Join(Tokens(rows[i]));
      UnlinesAppend(top + RowLines(rows)[..i], line);
      assert top + RowLines(rows)[..i] + [line] == top + RowLines(rows)[..i + 1];
      out := out + line + "\n";
    }
    assert RowLines(rows)[..|rows|] == RowLines(rows);
    var end := Footer(|rows|);
    UnlinesConcat(top + RowLines(rows), end);
    assert end[1..] == [end[1]] && end[1..][1..] == [];
    out := out + "/\n" + ShowNat(|rows|) + " records\n";
  }

  // ---------------------------------------------------------------------------------------------
  // Reading
  // ---------------------------------------------------------------------------------------------

  type Row = map<string, string>

  /** How many characters come before the next space. */
  function SpaceAt(s: string): (n: nat)
    ensures n <= |s|
  {
    if s == "" || s[0] == ' ' then 0 else 1 + SpaceAt(s[1..])
  }

  /** The kind and the time in the first line. */
  function ParseHeader(line: string): Result<(string, int)> {
    var a := SpaceAt(line);
    if a == |line| then Err(BadHeader)
    else
      var rest := line[a + 1..];
      var b := SpaceAt(rest);
      if b == |rest| || line[..a] != "XDUMP" then Err(BadHeader)
      else
        var ts := ParseInt(rest[b + 1..]);
        if ts == None then Err(BadTimestamp) else Ok((rest[..b], ts.value))
  }

  /** The first n fields with their values; a field named twice has its last value. */
  function RowOf(fields: seq<string>, vals: seq<string>, n: nat): Row
    requires n <= |fields| == |vals|
  {
    if n == 0 then map[] else RowOf(fields, vals, n - 1)[fields[n - 1] := Unquote(vals[n - 1])]
  }

  /** The rows up to a line with a slash; empty lines do not count. */
  function RowsOf(lines: seq<string>, fields: seq<string>): Result<seq<Row>> {
    if lines == [] then Ok([])
    else
      var line := Trim(lines[0]);
      if line == "/" then Ok([])
      else if line == "" then RowsOf(lines[1..], fields)
      else
        var vals := Words(line);
        if |vals| != |fields| then Err(FieldCount(|vals|, |fields|))
        else
          var rest :- RowsOf(lines[1..], fields);
          Ok([RowOf(fields, vals, |fields|)] + rest)
  }

  datatype Parsed = Parsed(kind: string, ts: int, rows: seq<Row>)

  function Parse(input: string): Result<Parsed> {
    var lines := Lines(input);
    if lines == [] then Err(EmptyInput)
    else
      var head :- ParseHeader(lines[0]);
      if |lines| < 2 then Err(NoFields)
      else
        var rows :- RowsOf(lines[2..], Words(lines[1]));
        Ok(Parsed(head.0, head.1, rows))
  }

  function Prefixed(rows: seq<Row>, rest: Result<seq<Row>>): Result<seq<Row>> {
    if rest.Ok? then Ok(rows + rest.value) else rest
  }

  method ParseRow(fields: seq<string>, vals: seq<string>) returns (row: Row)
    requires |fields| == |vals|
    ensures row == RowOf(fields, vals, |fields|)
  {
    row := map[];
    for i := 0 to |fields|
      invariant row == RowOf(fields, vals, i)
    {
      row := row[fields[i] := Unquote(vals[i])];
    }
  }

  /** Reads rows line by line, until a slash, the end, or a row of the wrong length. */
  method ParseRows(lines: seq<string>, fields: seq<string>) returns (r: Result<seq<Row>>)
    ensures r == RowsOf(lines, fields)
  {
    hide Trim, Words, RowOf;
    var rows: seq<Row> := [];
    var i := 0;
    assert lines[0..] == lines;
    PrefixedNone(RowsOf(lines, fields));
    while i < |lines|
      invariant 0 <= i <= |lines|
      invariant RowsOf(lines, fields) == Prefixed(rows, RowsOf(lines[i..], fields))
    {
      var line := Trim(lines[i]);
      assert lines[i..][1..] == lines[i + 1..];
      if line == "/" {
        break;
      }
      if line != "" {
        var vals := Words(line);
        if |vals| != |fields| {
          return Err(FieldCount(|vals|, |fields|));
        }
        var row := ParseRow(fields, vals);
        PrefixedMore(rows, row, RowsOf(lines[i + 1..], fields));
        rows := rows + [row];
      }
      i := i + 1;
    }
    assert rows + [] == rows;
    r := Ok(rows);
  }

  lemma {:induction false} PrefixedNone(rest: Result<seq<Row>>)
    ensures Prefixed([], rest) == rest
  {
    if rest.Ok? {
      assert [] + rest.value == rest.value;
    }
  }

  lemma {:induction false} PrefixedMore(rows: seq<Row>, row: Row, rest: Result<seq<Row>>)
    ensures Prefixed(rows, Prefixed([row], rest)) == Prefixed(rows + [row], rest)
  {
    if rest.Ok? {
      assert rows + ([row] + rest.value) == rows + [row] + rest.value;
    }
  }

  // ---------------------------------------------------------------------------------------------
  // Reading what was written
  // ---------------------------------------------------------------------------------------------

  ghost predicate Distinct(fields: seq<string>) {
    forall i, j :: 0 <= i < j < |fields| ==> fields[i] != fields[j]
  }

  /** The cells of a row fit the fields and can be held. */
  ghost predicate RowFits(cells: seq<Cell>, fields: seq<string>) {
    |cells| == |fields| && forall i :: 0 <= i < |cells| ==> Holds(cells[i])
  }

  ghost predicate RowsFit(rows: seq<seq<Cell>>, fields: seq<string>) {
    forall i :: 0 <= i < |rows| ==> |rows[i]| == |fields| && RowFits(rows[i], fields)
  }

  ghost predicate FieldsOk(fields: seq<string>) {
    |fields| >= 2 && Distinct(fields) && forall i :: 0 <= i < |fields| ==> IsWord(fields[i])
  }

  function Reading(fields: seq<string>, cells: seq<Cell>): Row
    requires |cells| == |fields|
  {
    RowOf(fields, Tokens(cells), |fields|)
  }

  function Readings(fields: seq<string>, rows: seq<seq<Cell>>): (r: seq<Row>)
    requires forall i :: 0 <= i < |rows| ==> |rows[i]| == |fields|
    ensures |r| == |rows| && forall i :: 0 <= i < |r| ==> r[i] == Reading(fields, rows[i])
  {
    seq(|rows|, i requires 0 <= i < |rows| => Reading(fields, rows[i]))
  }

  lemma {:induction false} RowAt(fields: seq<string>, vals: seq<string>, n: nat, i: nat)
    requires i < n <= |fields| == |vals| && Distinct(fields)
    ensures fields[i] in RowOf(fields, vals, n) && RowOf(fields, vals, n)[fields[i]] == Unquote(vals[i])
  {
    if i < n - 1 {
      RowAt(fields, vals, n - 1, i);
    }
  }

  lemma {:induction false} TokensAreWords(cells: seq<Cell>)
    requires forall i :: 0 <= i < |cells| ==> Holds(cells[i])
    ensures forall i :: 0 <= i < |cells| ==> IsWord(Tokens(cells)[i])
  {
    forall i | 0 <= i < |cells|
      ensures IsWord(Tokens(cells)[i])
    {
      TokenIsWord(cells[i]);
    }
  }

  /** A row's line is one line, is neither empty nor a slash, and splits into its tokens. */
  lemma {:induction false} RowLine(fields: seq<string>, cells: seq<Cell>)
    requires FieldsOk(fields) && RowFits(cells, fields)
    ensures var line := Join(Tokens(cells));
            IsLine(line) && Trim(line) == line && line != "/" && line != "" && Words(line) == Tokens(cells)
  {
    TokensAreWords(cells);
    var words := Tokens(cells);
    JoinIsTrimmed(words);
    JoinIsLine(words);
    WordsOfJoin(words);
  }

  lemma {:induction false} RowsAreRead(fields: seq<string>, rows: seq<seq<Cell>>, count: nat)
    requires FieldsOk(fields) && RowsFit(rows, fields)
    ensures RowsOf(RowLines(rows) + Footer(count), fields) == Ok(Readings(fields, rows))
  {
    hide FieldsOk, Trim, Words, Join, Token, Holds, RowOf;
    var lines := RowLines(rows) + Footer(count);
    if rows == [] {
      assert lines[0] == "/";
      SlashIsTrimmed();
      assert Readings(fields, rows) == [];
    } else {
      assert RowFits(rows[0], fields);
      RowLine(fields, rows[0]);
      RowsAreRead(fields, rows[1..], count);
      assert lines[0] == Join(Tokens(rows[0]));
      assert RowLines(rows)[1..] == RowLines(rows[1..]);
      assert lines[1..] == RowLines(rows[1..]) + Footer(count);
      assert Readings(fields, rows) == [Reading(fields, rows[0])] + Readings(fields, rows[1..]);
    }
  }

  lemma {:induction false} SlashIsTrimmed()
    ensures Trim("/") == "/"
  {}

  ghost predicate IsKind(kind: string) {
    IsWord(kind)
  }

  lemma {:induction false} SpaceAtWord(w: string, rest: string)
    requires forall i :: 0 <= i < |w| ==> w[i] != ' '
    ensures SpaceAt(w + " " + rest) == |w|
  {
    if w == "" {
      assert w + " " + rest == " " + rest;
    } else {
      assert (w + " " + rest)[1..] == w[1..] + " " + rest;
      SpaceAtWord(w[1..], rest);
    }
  }

  lemma {:induction false} HeaderIsRead(kind: string, ts: int)
    requires IsKind(kind) && IsI64(ts)
    ensures ParseHeader(Header(kind, ts)) == Ok((kind, ts)) && IsLine(Header(kind, ts))
  {
    ParseShowInt(ts);
    KindIsPlain(kind);
    HeaderIsLine(kind, ts);
    var time := ShowInt(ts);
    hide ShowInt, ParseInt, IsSpace, IsLine, IsWord, IsKind;
    var rest := kind + " " + time;
    SplitsAtWord("XDUMP", rest);
    SplitsAtWord(kind, time);
    hide SpaceAt;
  }

  lemma {:induction false} SplitsAtWord(w: string, rest: string)
    requires forall i :: 0 <= i < |w| ==> w[i] != ' '
    ensures var s := w + " " + rest;
            SpaceAt(s) == |w| < |s| && s[..|w|] == w && s[|w| + 1..] == rest
  {
    SpaceAtWord(w, rest);
  }

  lemma {:induction false} HeaderIsLine(kind: string, ts: int)
    requires IsKind(kind) && IsI64(ts)
    ensures IsLine(Header(kind, ts))
  {
    ParseShowInt(ts);
    XdumpIsWord();
    var time := ShowInt(ts);
    hide ShowInt, IsSpace, IsLine, IsWord;
    var words := ["XDUMP", kind, time];
    assert Join(words[1..][1..]) == time;
    assert Join(words[1..]) == kind + " " + time;
    assert Join(words) == Header(kind, ts);
    JoinIsLine(words);
  }

  lemma {:induction false} KindIsPlain(kind: string)
    requires IsKind(kind)
    ensures forall i :: 0 <= i < |kind| ==> kind[i] != ' '
  {}

  lemma {:induction false} XdumpIsWord()
    ensures IsWord("XDUMP") && IsWord("/")
  {}

  lemma {:induction false} FooterIsLines(count: nat)
    ensures forall i :: 0 <= i < |Footer(count)| ==> IsLine(Footer(count)[i])
  {
    ShowNatIsWord(count);
    var words := [ShowNat(count), "records"];
    hide ShowNat;
    assert Join(words[1..]) == "records";
    assert Join(words) == Footer(count)[1];
    RecordsIsWord();
    JoinIsLine(words);
  }

  lemma {:induction false} RecordsIsWord()
    ensures IsWord("records")
  {}

  lemma {:induction false} DumpIsLines(kind: string, ts: int, fields: seq<string>, rows: seq<seq<Cell>>)
    requires IsKind(kind) && IsI64(ts) && FieldsOk(fields) && RowsFit(rows, fields)
    ensures forall i :: 0 <= i < |DumpLines(kind, ts, fields, rows)| ==> IsLine(DumpLines(kind, ts, fields, rows)[i])
  {
    var lines := DumpLines(kind, ts, fields, rows);
    hide IsLine, Header, Join, FieldsOk, ParseHeader, Words, Trim, RowFits, ShowNat, Tokens, IsKind;
    HeaderIsRead(kind, ts);
    FieldsAreLine(fields);
    FooterIsLines(|rows|);
    forall i | 0 <= i < |lines|
      ensures IsLine(lines[i])
    {
      if 2 <= i < |rows| + 2 {
        RowLine(fields, rows[i - 2]);
        assert lines[i] == RowLines(rows)[i - 2];
      }
    }
  }

  lemma {:induction false} FieldsAreLine(fields: seq<string>)
    requires FieldsOk(fields)
    ensures IsLine(Join(fields)) && Words(Join(fields)) == fields
  {
    JoinIsLine(fields);
    WordsOfJoin(fields);
  }

  /** Reading a dump succeeds, with as many rows as were written, each field holding its token unquoted. */
  lemma {:induction false} ParseDump(kind: string, ts: int, fields: seq<string>, rows: seq<seq<Cell>>)
    requires IsKind(kind) && IsI64(ts) && FieldsOk(fields) && RowsFit(rows, fields)
    ensures Parse(DumpText(kind, ts, fields, rows)) == Ok(Parsed(kind, ts, Readings(fields, rows)))
  {
    hide Header, Join, Words, RowsOf, Unlines, Lines, ParseHeader, FieldsOk, IsLine, RowFits, ShowNat, Trim, Tokens,
         IsKind, Readings, Footer;
    var lines := DumpLines(kind, ts, fields, rows);
    DumpIsLines(kind, ts, fields, rows);
    LinesOfUnlines(lines);
    HeaderIsRead(kind, ts);
    FieldsAreLine(fields);
    RowsAreRead(fields, rows, |rows|);
    assert lines[0] == Header(kind, ts) && lines[1] == Join(fields);
    assert lines[2..] == RowLines(rows) + Footer(|rows|);
  }
}
