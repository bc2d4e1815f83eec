/** The records of a dump, and what is left of them when they are read back. */
module Records {
  import opened Game
  import opened Rounding
  import opened Text
  import opened Dump
  import opened Getters

  /** An unknown status is that of an unused nation. */
  function StatusOf(n: int): int {
    if 1 <= n <= 5 then n else 0
  }

  /** An unknown type is wilderness. */
  function SectTypeOf(n: int): int {
    if 0 <= n < SECTOR_TYPES then n else WILDERNESS
  }

  /** No delivery and no distribution, for all 26 entries. */
  function NoOrders(): seq<(int, int)> {
    seq(26, _ => (0, 0))
  }

  // ---------------------------------------------------------------------------------------------
  // Nations
  // ---------------------------------------------------------------------------------------------

  datatype Nation = Nation(
    uid: int, cnum: int, status: int, flags: int, name: string, representative: string, hostAddr: string,
    userId: string, xcap: int, ycap: int, xorg: int, yorg: int, money: int, reserve: int, tech: Level,
    research: Level, education: Level, happiness: Level, loginCount: int, teleCnt: int, annCnt: int, lastAnnRead: int,
      passwdHash: string,
    lastLogin: int, lastLogout: int, newsTime: int)

  const NATION_FIELDS := [
    "uid", "cnum", "status", "flags", "name", "representative", "host", "xcap", "ycap", "xorg", "yorg", "money",
    "reserve", "tech", "research", "education", "happiness", "login_count", "passwd_hash", "last_login", "last_logout"]

  function NationCells(s: Nation): (r: seq<Cell>)
    ensures |r| == |NATION_FIELDS|
  {
    [Num(s.uid), Num(s.cnum), Num(s.status), Num(s.flags), Str(s.name), Str(s.representative), Str(s.hostAddr),
     Num(s.xcap), Num(s.ycap), Num(s.xorg), Num(s.yorg), Num(s.money), Num(s.reserve), Dec(s.tech), Dec(s.research),
     Dec(s.education), Dec(s.happiness), Num(s.loginCount), Str(s.passwdHash), Num(s.lastLogin), Num(s.lastLogout)]
  }

  /** One more than all defined flags together. */
  const NATION_FLAGS := 0x40

  function NationFrom(row: Row): Result<Nation> {
    var uid :- GetI32(row, "uid");
    var cnum :- GetU8(row, "cnum");
    var status :- GetI64(row, "status");
    var flags :- GetFlags(row, "flags", NATION_FLAGS);
    var name :- GetStr(row, "name");
    var representative :- GetStr(row, "representative");
    var hostAddr :- GetStr(row, "host");
    var xcap :- GetI16(row, "xcap");
    var ycap :- GetI16(row, "ycap");
    var xorg :- GetI16(row, "xorg");
    var yorg :- GetI16(row, "yorg");
    var money :- GetI32(row, "money");
    var reserve :- GetI32(row, "reserve");
    var tech :- GetDec(row, "tech");
    var research :- GetDec(row, "research");
    var education :- GetDec(row, "education");
    var happiness :- GetDec(row, "happiness");
    var loginCount :- GetI32(row, "login_count");
    var passwdHash := OrElse(GetStr(row, "passwd_hash"), "");
    var lastLogin := OrElse(GetI64(row, "last_login"), 0);
    var lastLogout := OrElse(GetI64(row, "last_logout"), 0);
    Ok(Nation(uid, cnum, StatusOf(status), flags, name, representative, hostAddr, "", xcap, ycap, xorg, yorg, money,
              reserve, tech, research, education, happiness, loginCount, 0, 0, 0, passwdHash, lastLogin, lastLogout, 0))
  }

  /** Every field is within its type, and no string has white space but spaces. */
  ghost predicate NationOk(s: Nation) {
    IsI32(s.uid) && IsU8(s.cnum) && 0 <= s.status <= 5 && 0 <= s.flags < NATION_FLAGS && Holds(Str(s.name))
    && Holds(Str(s.representative)) && Holds(Str(s.hostAddr)) && IsI16(s.xcap) && IsI16(s.ycap) && IsI16(s.xorg)
    && IsI16(s.yorg) && IsI32(s.money) && IsI32(s.reserve) && IsI32(s.loginCount) && Holds(Str(s.passwdHash))
    && IsI64(s.lastLogin) && IsI64(s.lastLogout)
  }

  /** A nation that was dumped and loaded. */
  function NationRestored(s: Nation): Nation {
    s.(name := Respaced(s.name), representative := Respaced(s.representative), hostAddr := Respaced(s.hostAddr),
       passwdHash := Respaced(s.passwdHash), tech := ToHundredths(s.tech), research := ToHundredths(s.research),
       education := ToHundredths(s.education), happiness := ToHundredths(s.happiness), userId := "", teleCnt := 0,
         annCnt := 0, lastAnnRead := 0, newsTime := 0)
  }

  lemma {:induction false} NationFieldsAreWords()
    ensures forall i :: 0 <= i < |NATION_FIELDS| ==> IsWord(NATION_FIELDS[i])
  {}

  lemma {:induction false} NationFieldsOk()
    ensures FieldsOk(NATION_FIELDS)
  {
    NationFieldsAreWords();
    hide IsWord;
  }

  lemma {:induction false} NationRowFits(s: Nation)
    requires NationOk(s)
    ensures RowFits(NationCells(s), NATION_FIELDS)
  {}

  ghost predicate NationFoundFirst(row: Row, s: Nation) {
    GetI64(row, "uid") == Ok(s.uid) && GetI64(row, "cnum") == Ok(s.cnum) && GetI64(row, "status") == Ok(s.status)
    && GetI64(row, "flags") == Ok(s.flags) && GetStr(row, "name") == Ok(Respaced(s.name))
    && GetStr(row, "representative") == Ok(Respaced(s.representative))
    && GetStr(row, "host") == Ok(Respaced(s.hostAddr))
  }

  lemma {:induction false} NationFindsFirst(row: Row, s: Nation)
    requires AllFound(row, NATION_FIELDS, NationCells(s))
    ensures NationFoundFirst(row, s)
  {
    hide GetI64, GetStr, GetChar, GetDec, Respaced, Relettered, AllFound, StockOf, ToHundredths;
    FoundAt(row, NATION_FIELDS, NationCells(s), 0);
    FoundAt(row, NATION_FIELDS, NationCells(s), 1);
    FoundAt(row, NATION_FIELDS, NationCells(s), 2);
    FoundAt(row, NATION_FIELDS, NationCells(s), 3);
    FoundAt(row, NATION_FIELDS, NationCells(s), 4);
    FoundAt(row, NATION_FIELDS, NationCells(s), 5);
    FoundAt(row, NATION_FIELDS, NationCells(s), 6);
  }

  ghost predicate NationFoundNext(row: Row, s: Nation) {
    GetI64(row, "xcap") == Ok(s.xcap) && GetI64(row, "ycap") == Ok(s.ycap) && GetI64(row, "xorg") == Ok(s.xorg)
    && GetI64(row, "yorg") == Ok(s.yorg) && GetI64(row, "money") == Ok(s.money)
    && GetI64(row, "reserve") == Ok(s.reserve) && GetDec(row, "tech") == Ok(ToHundredths(s.tech))
  }

  lemma {:induction false} NationFindsNext(row: Row, s: Nation)
    requires AllFound(row, NATION_FIELDS, NationCells(s))
    ensures NationFoundNext(row, s)
  {
    hide GetI64, GetStr, GetChar, GetDec, Respaced, Relettered, AllFound, StockOf, ToHundredths;
    FoundAt(row, NATION_FIELDS, NationCells(s), 7);
    FoundAt(row, NATION_FIELDS, NationCells(s), 8);
    FoundAt(row, NATION_FIELDS, NationCells(s), 9);
    FoundAt(row, NATION_FIELDS, NationCells(s), 10);
    FoundAt(row, NATION_FIELDS, NationCells(s), 11);
    FoundAt(row, NATION_FIELDS, NationCells(s), 12);
    FoundAt(row, NATION_FIELDS, NationCells(s), 13);
  }

  ghost predicate NationFoundLast(row: Row, s: Nation) {
    GetDec(row, "research") == Ok(ToHundredths(s.research)) && GetDec(row, "education") == Ok(ToHundredths(s.education))
    && GetDec(row, "happiness") == Ok(ToHundredths(s.happiness)) && GetI64(row, "login_count") == Ok(s.loginCount)
    && GetStr(row, "passwd_hash") == Ok(Respaced(s.passwdHash)) && GetI64(row, "last_login") == Ok(s.lastLogin)
    && GetI64(row, "last_logout") == Ok(s.lastLogout)
  }

  lemma {:induction false} NationFindsLast(row: Row, s: Nation)
    requires AllFound(row, NATION_FIELDS, NationCells(s))
    ensures NationFoundLast(row, s)
  {
    hide GetI64, GetStr, GetChar, GetDec, Respaced, Relettered, AllFound, StockOf, ToHundredths;
    FoundAt(row, NATION_FIELDS, NationCells(s), 14);
    FoundAt(row, NATION_FIELDS, NationCells(s), 15);
    FoundAt(row, NATION_FIELDS, NationCells(s), 16);
    FoundAt(row, NATION_FIELDS, NationCells(s), 17);
    FoundAt(row, NATION_FIELDS, NationCells(s), 18);
    FoundAt(row, NATION_FIELDS, NationCells(s), 19);
    FoundAt(row, NATION_FIELDS, NationCells(s), 20);
  }

  /** The values of a nation under their names. */
  ghost predicate NationFound(row: Row, s: Nation) {
    NationFoundFirst(row, s) && NationFoundNext(row, s) && NationFoundLast(row, s)
  }

  lemma {:induction false} NationIsFound(row: Row, s: Nation)
    requires NationOk(s) && AllFound(row, NATION_FIELDS, NationCells(s))
    ensures NationFound(row, s)
  {
    hide AllFound, NationFoundFirst, NationFoundNext, NationFoundLast, StocksFrom, Restocked;
    NationFindsFirst(row, s);
    NationFindsNext(row, s);
    NationFindsLast(row, s);

  }

  /** Every dumped field of a nation is restored, but for underscores and dashes; the others are reset. */
  lemma {:induction false} NationIsRestored(s: Nation)
    requires NationOk(s)
    ensures NationFrom(Reading(NATION_FIELDS, NationCells(s))) == Ok(NationRestored(s))
  {
    NationFieldsOk();
    NationRowFits(s);
    GettersFind(NATION_FIELDS, NationCells(s));
    NationIsFound(Reading(NATION_FIELDS, NationCells(s)), s);
    CutsKeep();
    hide GetI64, GetStr, GetChar, GetDec, Reading, Respaced, Relettered, StocksFrom, ToHundredths, CutI32, CutI8,
      CutU8, AsI16,
         CutBits, Restocked,
      FieldsOk, RowFits, Holds, Found, AllFound, NationCells, StocksOk;
  }

  /** A restored nation is dumped just as it was. */
  lemma {:induction false} NationDumpsSame(s: Nation)
    requires NationOk(s)
    ensures Tokens(NationCells(NationRestored(s))) == Tokens(NationCells(s)) && NationOk(NationRestored(s))
  {
    NationRowFits(s);
    var c, c' := NationCells(s), NationCells(NationRestored(s));
    forall i | 0 <= i < |c|
      ensures Token(c'[i]) == Token(c[i])
    {
      assert c'[i] == Reread(c[i]);
      RereadToken(c[i]);
    }
  }

  /** What of a nation survives being dumped and loaded, exactly. */
  lemma {:induction false} NationSurvives(s: Nation)
    requires NationOk(s)
    ensures var t := NationRestored(s);
            (t.name == s.name <==> '_' !in s.name)
            && (t.representative == s.representative <==> '_' !in s.representative)
            && (t.hostAddr == s.hostAddr <==> '_' !in s.hostAddr)
            && (t.passwdHash == s.passwdHash <==> '_' !in s.passwdHash)
            && (t.tech == s.tech <==> IsWholeHundredths(s.tech))
            && (t.research == s.research <==> IsWholeHundredths(s.research))
            && (t.education == s.education <==> IsWholeHundredths(s.education))
            && (t.happiness == s.happiness <==> IsWholeHundredths(s.happiness))
  {
    RoundingIsClose(s.tech);
    RoundingIsClose(s.research);
    RoundingIsClose(s.education);
    RoundingIsClose(s.happiness);
    hide ToHundredths, IsWholeHundredths;
    RereadIsSame(Str(s.name));
    RereadIsSame(Str(s.representative));
    RereadIsSame(Str(s.hostAddr));
    RereadIsSame(Str(s.passwdHash));
  }

  // ---------------------------------------------------------------------------------------------
  // Sectors
  // ---------------------------------------------------------------------------------------------

  datatype SectorRecord = SectorRecord(
    uid: int, own: int, x: int, y: int, sectorType: int, effic: int, mobil: int, off: bool, loyal: int,
    terr: seq<int>, dterr: int, distX: int, distY: int, avail: int, flags: int, elev: int, work: int, coastal: bool,
    newType: int, min: int, gmin: int, fertil: int, oil: int, uran: int, oldOwn: int, che: int, cheTarget: int,
    items: seq<int>, del: seq<(int, int)>, mines: int, pstage: int, ptime: int, fallout: int)

  const SECTOR_FIELDS := [
    "x", "y", "uid", "own", "type", "eff", "mobil", "work", "loyal", "fertil", "oil", "uran", "mines", "fallout",
    "civil", "milit", "food", "shell", "gun", "petrol", "iron", "dust", "bar", "lcm", "hcm", "rad"]

  function SectorRecordCells(s: SectorRecord): (r: seq<Cell>)
    ensures |r| == |SECTOR_FIELDS|
  {
    [Num(s.x), Num(s.y), Num(s.uid), Num(s.own), Num(s.sectorType), Num(s.effic), Num(s.mobil), Num(s.work),
     Num(s.loyal), Num(s.fertil), Num(s.oil), Num(s.uran), Num(s.mines), Num(s.fallout), Num(StockOf(s.items, 0)),
     Num(StockOf(s.items, 1)), Num(StockOf(s.items, 8)), Num(StockOf(s.items, 2)), Num(StockOf(s.items, 3)),
     Num(StockOf(s.items, 4)), Num(StockOf(s.items, 5)), Num(StockOf(s.items, 6)), Num(StockOf(s.items, 7)),
     Num(StockOf(s.items, 10)), Num(StockOf(s.items, 11)), Num(StockOf(s.items, 13))]
  }

  function SectorRecordFrom(row: Row): Result<SectorRecord> {
    var uid :- GetI32(row, "uid");
    var own :- GetU8(row, "own");
    var x :- GetI16(row, "x");
    var y :- GetI16(row, "y");
    var sectorType :- GetI64(row, "type");
    var effic :- GetI8(row, "eff");
    var mobil :- GetI8(row, "mobil");
    var loyal :- GetU8(row, "loyal");
    var work :- GetU8(row, "work");
    var fertil :- GetU8(row, "fertil");
    var oil :- GetU8(row, "oil");
    var uran :- GetU8(row, "uran");
    var mines :- GetI16(row, "mines");
    var fallout :- GetI32(row, "fallout");
    Ok(SectorRecord(uid, own, x, y, SectTypeOf(sectorType), effic, mobil, false, loyal, [0, 0, 0, 0], 0, 0, 0, 0, 0,
                    0, work, false, SectTypeOf(sectorType), 0, 0, fertil, oil, uran, 0, 0, 0,
                    StocksFrom(row, |STOCKS|), NoOrders(), mines, 0, 0, fallout))
  }

  /** Every field is within its type. */
  ghost predicate SectorRecordOk(s: SectorRecord) {
    IsI16(s.x) && IsI16(s.y) && IsI32(s.uid) && IsU8(s.own) && 0 <= s.sectorType < SECTOR_TYPES && IsI8(s.effic)
    && IsI8(s.mobil) && IsU8(s.work) && IsU8(s.loyal) && IsU8(s.fertil) && IsU8(s.oil) && IsU8(s.uran)
    && IsI16(s.mines) && IsI32(s.fallout) && StocksOk(s.items)
  }

  /** A sector that was dumped and loaded. */
  function SectorRecordRestored(s: SectorRecord): SectorRecord {
    s.(items := Restocked(s.items), off := false, terr := [0, 0, 0, 0], dterr := 0, distX := 0, distY := 0,
       avail := 0, flags := 0, elev := 0, coastal := false, newType := s.sectorType, min := 0, gmin := 0, oldOwn := 0,
       che := 0, cheTarget := 0, del := NoOrders(), pstage := 0, ptime := 0)
  }

  lemma {:induction false} SectorRecordFieldsAreWords()
    ensures forall i :: 0 <= i < |SECTOR_FIELDS| ==> IsWord(SECTOR_FIELDS[i])
  {}

  lemma {:induction false} SectorRecordFieldsOk()
    ensures FieldsOk(SECTOR_FIELDS)
  {
    SectorRecordFieldsAreWords();
    hide IsWord;
  }

  lemma {:induction false} SectorRecordRowFits(s: SectorRecord)
    requires SectorRecordOk(s)
    ensures RowFits(SectorRecordCells(s), SECTOR_FIELDS)
  {}

  ghost predicate SectorRecordFoundFirst(row: Row, s: SectorRecord) {
    GetI64(row, "x") == Ok(s.x) && GetI64(row, "y") == Ok(s.y) && GetI64(row, "uid") == Ok(s.uid)
    && GetI64(row, "own") == Ok(s.own) && GetI64(row, "type") == Ok(s.sectorType) && GetI64(row, "eff") == Ok(s.effic)
    && GetI64(row, "mobil") == Ok(s.mobil)
  }

  lemma {:induction false} SectorRecordFindsFirst(row: Row, s: SectorRecord)
    requires AllFound(row, SECTOR_FIELDS, SectorRecordCells(s))
    ensures SectorRecordFoundFirst(row, s)
  {
    hide GetI64, GetStr, GetChar, GetDec, Respaced, Relettered, AllFound, StockOf;
    FoundAt(row, SECTOR_FIELDS, SectorRecordCells(s), 0);
    FoundAt(row, SECTOR_FIELDS, SectorRecordCells(s), 1);
    FoundAt(row, SECTOR_FIELDS, SectorRecordCells(s), 2);
    FoundAt(row, SECTOR_FIELDS, SectorRecordCells(s), 3);
    FoundAt(row, SECTOR_FIELDS, SectorRecordCells(s), 4);
    FoundAt(row, SECTOR_FIELDS, SectorRecordCells(s), 5);
    FoundAt(row, SECTOR_FIELDS, SectorRecordCells(s), 6);
  }

  ghost predicate SectorRecordFoundLast(row: Row, s: SectorRecord) {
    GetI64(row, "work") == Ok(s.work) && GetI64(row, "loyal") == Ok(s.loyal)
    && GetI64(row, "fertil") == Ok(s.fertil) && GetI64(row, "oil") == Ok(s.oil) && GetI64(row, "uran") == Ok(s.uran)
    && GetI64(row, "mines") == Ok(s.mines) && GetI64(row, "fallout") == Ok(s.fallout)
  }

  lemma {:induction false} SectorRecordFindsLast(row: Row, s: SectorRecord)
    requires AllFound(row, SECTOR_FIELDS, SectorRecordCells(s))
    ensures SectorRecordFoundLast(row, s)
  {
    hide GetI64, GetStr, GetChar, GetDec, Respaced, Relettered, AllFound, StockOf;
    FoundAt(row, SECTOR_FIELDS, SectorRecordCells(s), 7);
    FoundAt(row, SECTOR_FIELDS, SectorRecordCells(s), 8);
    FoundAt(row, SECTOR_FIELDS, SectorRecordCells(s), 9);
    FoundAt(row, SECTOR_FIELDS, SectorRecordCells(s), 10);
    FoundAt(row, SECTOR_FIELDS, SectorRecordCells(s), 11);
    FoundAt(row, SECTOR_FIELDS, SectorRecordCells(s), 12);
    FoundAt(row, SECTOR_FIELDS, SectorRecordCells(s), 13);
  }

  /** The values of a sector under their names. */
  ghost predicate SectorRecordFound(row: Row, s: SectorRecord) {
    SectorRecordFoundFirst(row, s) && SectorRecordFoundLast(row, s) && StocksFrom(row, |STOCKS|) == Restocked(s.items)
  }

  /** The columns that name the stocks. */
  lemma {:induction false} SectorRecordStocksNamed()
    ensures SECTOR_FIELDS[14..26] == STOCKS
  {
    var names := SECTOR_FIELDS[14..26];
    assert names[0] == STOCKS[0] && names[1] == STOCKS[1] && names[2] == STOCKS[2] && names[3] == STOCKS[3];
    assert names[4] == STOCKS[4] && names[5] == STOCKS[5] && names[6] == STOCKS[6] && names[7] == STOCKS[7];
    assert names[8] == STOCKS[8] && names[9] == STOCKS[9] && names[10] == STOCKS[10] && names[11] == STOCKS[11];
  }

  /** The columns that hold the stocks. */
  lemma {:induction false} SectorRecordStocksStand(s: SectorRecord)
    ensures SectorRecordCells(s)[14..26] == StockCells(s.items)
  {
    hide StockOf;
    var values, stocks := SectorRecordCells(s)[14..26], StockCells(s.items);
    assert values[0] == stocks[0] && values[1] == stocks[1] && values[2] == stocks[2] && values[3] == stocks[3];
    assert values[4] == stocks[4] && values[5] == stocks[5] && values[6] == stocks[6] && values[7] == stocks[7];
    assert values[8] == stocks[8] && values[9] == stocks[9] && values[10] == stocks[10] && values[11] == stocks[11];
  }

  lemma {:induction false} SectorRecordIsFound(row: Row, s: SectorRecord)
    requires SectorRecordOk(s) && AllFound(row, SECTOR_FIELDS, SectorRecordCells(s))
    ensures SectorRecordFound(row, s)
  {
    hide AllFound, SectorRecordFoundFirst, SectorRecordFoundLast, StocksFrom, Restocked;
    SectorRecordFindsFirst(row, s);
    SectorRecordFindsLast(row, s);
    SectorRecordStocksNamed();
    SectorRecordStocksStand(s);
    hide SectorRecordCells, StockCells;
    StocksAreWritten(row, SECTOR_FIELDS, SectorRecordCells(s), 14, s.items);
  }

  /** Every dumped field of a sector is restored, but for underscores and dashes; the others are reset. */
  lemma {:induction false} SectorRecordIsRestored(s: SectorRecord)
    requires SectorRecordOk(s)
    ensures SectorRecordFrom(Reading(SECTOR_FIELDS, SectorRecordCells(s))) == Ok(SectorRecordRestored(s))
  {
    SectorRecordFieldsOk();
    SectorRecordRowFits(s);
    GettersFind(SECTOR_FIELDS, SectorRecordCells(s));
    SectorRecordIsFound(Reading(SECTOR_FIELDS, SectorRecordCells(s)), s);
    CutsKeep();
    hide GetI64, GetStr, GetChar, GetDec, Reading, Respaced, Relettered, StocksFrom, CutI32, CutI8, CutU8, AsI16,
         CutBits, Restocked,
      FieldsOk, RowFits, Holds, Found, AllFound, SectorRecordCells, StocksOk;
  }

  /** A restored sector is dumped just as it was. */
  lemma {:induction false} SectorRecordDumpsSame(s: SectorRecord)
    requires SectorRecordOk(s)
    ensures Tokens(SectorRecordCells(SectorRecordRestored(s))) == Tokens(SectorRecordCells(s))
            && SectorRecordOk(SectorRecordRestored(s))
  {
    SectorRecordRowFits(s);
    var c, c' := SectorRecordCells(s), SectorRecordCells(SectorRecordRestored(s));
    StockCellsStay(s.items);
    forall i | 0 <= i < |c|
      ensures Token(c'[i]) == Token(c[i])
    {
      assert c'[i] == Reread(c[i]);
      RereadToken(c[i]);
    }
  }

  /** What of a sector survives being dumped and loaded, exactly. */
  lemma {:induction false} SectorRecordSurvives(s: SectorRecord)
    requires SectorRecordOk(s)
    ensures var t := SectorRecordRestored(s);
            (t.items == s.items <==> s.items[OIL] == 0 && s.items[UW] == 0)
  {
    RestockedIsSame(s.items);
  }

  // ---------------------------------------------------------------------------------------------
  // Ships
  // ---------------------------------------------------------------------------------------------

  datatype Ship = Ship(
    uid: int, own: int, x: int, y: int, shipType: int, effic: int, mobil: int, off: bool, tech: int, fleet: char,
    opx: int, opy: int, mission: int, missionRadius: int, items: seq<int>, pstage: int, ptime: int, access: int,
    name: string, origX: int, origY: int, origOwn: int, retreatFlags: int, retreatPath: string)

  const SHIP_FIELDS := [
    "uid", "own", "x", "y", "type", "eff", "mobil", "tech", "fleet", "orig_x", "orig_y", "orig_own", "civil", "milit",
    "food", "shell", "gun", "petrol", "iron", "dust", "bar", "lcm", "hcm", "rad", "retreat_flags", "name"]

  function ShipCells(s: Ship): (r: seq<Cell>)
    ensures |r| == |SHIP_FIELDS|
  {
    [Num(s.uid), Num(s.own), Num(s.x), Num(s.y), Num(s.shipType), Num(s.effic), Num(s.mobil), Num(s.tech),
     Letter(s.fleet), Num(s.origX), Num(s.origY), Num(s.origOwn), Num(StockOf(s.items, 0)), Num(StockOf(s.items, 1)),
     Num(StockOf(s.items, 8)), Num(StockOf(s.items, 2)), Num(StockOf(s.items, 3)), Num(StockOf(s.items, 4)),
     Num(StockOf(s.items, 5)), Num(StockOf(s.items, 6)), Num(StockOf(s.items, 7)), Num(StockOf(s.items, 10)),
     Num(StockOf(s.items, 11)), Num(StockOf(s.items, 13)), Num(s.retreatFlags), Str(s.name)]
  }

  /** One more than all defined flags together. */
  const SHIP_FLAGS := 0x80

  function ShipFrom(row: Row): Result<Ship> {
    var uid :- GetI32(row, "uid");
    var own :- GetU8(row, "own");
    var x :- GetI16(row, "x");
    var y :- GetI16(row, "y");
    var shipType :- GetI8(row, "type");
    var effic :- GetI8(row, "eff");
    var mobil :- GetI8(row, "mobil");
    var tech :- GetI16(row, "tech");
    var fleet :- GetChar(row, "fleet");
    var name :- GetStr(row, "name");
    var origX :- GetI16(row, "orig_x");
    var origY :- GetI16(row, "orig_y");
    var origOwn :- GetU8(row, "orig_own");
    var retreatFlags :- GetFlags(row, "retreat_flags", SHIP_FLAGS);
    Ok(Ship(uid, own, x, y, shipType, effic, mobil, false, tech, fleet, 0, 0, 0, 0, StocksFrom(row, |STOCKS|), 0, 0,
            0, name, origX, origY, origOwn, retreatFlags, ""))
  }

  /** Every field is within its type, and no string has white space but spaces. */
  ghost predicate ShipOk(s: Ship) {
    IsI32(s.uid) && IsU8(s.own) && IsI16(s.x) && IsI16(s.y) && IsI8(s.shipType) && IsI8(s.effic) && IsI8(s.mobil)
    && IsI16(s.tech) && Holds(Letter(s.fleet)) && IsI16(s.origX) && IsI16(s.origY) && IsU8(s.origOwn)
    && StocksOk(s.items) && 0 <= s.retreatFlags < SHIP_FLAGS && Holds(Str(s.name))
  }

  /** A ship that was dumped and loaded. */
  function ShipRestored(s: Ship): Ship {
    s.(fleet := Relettered(s.fleet), items := Restocked(s.items), name := Respaced(s.name), off := false, opx := 0,
       opy := 0, mission := 0, missionRadius := 0, pstage := 0, ptime := 0, access := 0, retreatPath := "")
  }

  lemma {:induction false} ShipFieldsAreWords()
    ensures forall i :: 0 <= i < |SHIP_FIELDS| ==> IsWord(SHIP_FIELDS[i])
  {}

  lemma {:induction false} ShipFieldsOk()
    ensures FieldsOk(SHIP_FIELDS)
  {
    ShipFieldsAreWords();
    hide IsWord;
  }

  lemma {:induction false} ShipRowFits(s: Ship)
    requires ShipOk(s)
    ensures RowFits(ShipCells(s), SHIP_FIELDS)
  {}

  ghost predicate ShipFoundFirst(row: Row, s: Ship) {
    GetI64(row, "uid") == Ok(s.uid) && GetI64(row, "own") == Ok(s.own) && GetI64(row, "x") == Ok(s.x)
    && GetI64(row, "y") == Ok(s.y) && GetI64(row, "type") == Ok(s.shipType) && GetI64(row, "eff") == Ok(s.effic)
    && GetI64(row, "mobil") == Ok(s.mobil)
  }

  lemma {:induction false} ShipFindsFirst(row: Row, s: Ship)
    requires AllFound(row, SHIP_FIELDS, ShipCells(s))
    ensures ShipFoundFirst(row, s)
  {
    hide GetI64, GetStr, GetChar, GetDec, Respaced, Relettered, AllFound, StockOf;
    FoundAt(row, SHIP_FIELDS, ShipCells(s), 0);
    FoundAt(row, SHIP_FIELDS, ShipCells(s), 1);
    FoundAt(row, SHIP_FIELDS, ShipCells(s), 2);
    FoundAt(row, SHIP_FIELDS, ShipCells(s), 3);
    FoundAt(row, SHIP_FIELDS, ShipCells(s), 4);
    FoundAt(row, SHIP_FIELDS, ShipCells(s), 5);
    FoundAt(row, SHIP_FIELDS, ShipCells(s), 6);
  }

  ghost predicate ShipFoundLast(row: Row, s: Ship) {
    GetI64(row, "tech") == Ok(s.tech) && GetChar(row, "fleet") == Ok(Relettered(s.fleet))
    && GetI64(row, "orig_x") == Ok(s.origX) && GetI64(row, "orig_y") == Ok(s.origY)
    && GetI64(row, "orig_own") == Ok(s.origOwn) && GetI64(row, "retreat_flags") == Ok(s.retreatFlags)
    && GetStr(row, "name") == Ok(Respaced(s.name))
  }

  lemma {:induction false} ShipFindsLast(row: Row, s: Ship)
    requires AllFound(row, SHIP_FIELDS, ShipCells(s))
    ensures ShipFoundLast(row, s)
  {
    hide GetI64, GetStr, GetChar, GetDec, Respaced, Relettered, AllFound, StockOf;
    FoundAt(row, SHIP_FIELDS, ShipCells(s), 7);
    FoundAt(row, SHIP_FIELDS, ShipCells(s), 8);
    FoundAt(row, SHIP_FIELDS, ShipCells(s), 9);
    FoundAt(row, SHIP_FIELDS, ShipCells(s), 10);
    FoundAt(row, SHIP_FIELDS, ShipCells(s), 11);
    FoundAt(row, SHIP_FIELDS, ShipCells(s), 24);
    FoundAt(row, SHIP_FIELDS, ShipCells(s), 25);
  }

  /** The values of a ship under their names. */
  ghost predicate ShipFound(row: Row, s: Ship) {
    ShipFoundFirst(row, s) && ShipFoundLast(row, s) && StocksFrom(row, |STOCKS|) == Restocked(s.items)
  }

  /** The columns that name the stocks. */
  lemma {:induction false} ShipStocksNamed()
    ensures SHIP_FIELDS[12..24] == STOCKS
  {
    var names := SHIP_FIELDS[12..24];
    assert names[0] == STOCKS[0] && names[1] == STOCKS[1] && names[2] == STOCKS[2] && names[3] == STOCKS[3];
    assert names[4] == STOCKS[4] && names[5] == STOCKS[5] && names[6] == STOCKS[6] && names[7] == STOCKS[7];
    assert names[8] == STOCKS[8] && names[9] == STOCKS[9] && names[10] == STOCKS[10] && names[11] == STOCKS[11];
  }

  /** The columns that hold the stocks. */
  lemma {:induction false} ShipStocksStand(s: Ship)
    ensures ShipCells(s)[12..24] == StockCells(s.items)
  {
    hide StockOf;
    var values, stocks := ShipCells(s)[12..24], StockCells(s.items);
    assert values[0] == stocks[0] && values[1] == stocks[1] && values[2] == stocks[2] && values[3] == stocks[3];
    assert values[4] == stocks[4] && values[5] == stocks[5] && values[6] == stocks[6] && values[7] == stocks[7];
    assert values[8] == stocks[8] && values[9] == stocks[9] && values[10] == stocks[10] && values[11] == stocks[11];
  }

  lemma {:induction false} ShipIsFound(row: Row, s: Ship)
    requires ShipOk(s) && AllFound(row, SHIP_FIELDS, ShipCells(s))
    ensures ShipFound(row, s)
  {
    hide AllFound, ShipFoundFirst, ShipFoundLast, StocksFrom, Restocked;
    ShipFindsFirst(row, s);
    ShipFindsLast(row, s);
    ShipStocksNamed();
    ShipStocksStand(s);
    hide ShipCells, StockCells;
    StocksAreWritten(row, SHIP_FIELDS, ShipCells(s), 12, s.items);
  }

  /** Every dumped field of a ship is restored, but for underscores and dashes; the others are reset. */
  lemma {:induction false} ShipIsRestored(s: Ship)
    requires ShipOk(s)
    ensures ShipFrom(Reading(SHIP_FIELDS, ShipCells(s))) == Ok(ShipRestored(s))
  {
    ShipFieldsOk();
    ShipRowFits(s);
    GettersFind(SHIP_FIELDS, ShipCells(s));
    ShipIsFound(Reading(SHIP_FIELDS, ShipCells(s)), s);
    CutsKeep();
    hide GetI64, GetStr, GetChar, GetDec, Reading, Respaced, Relettered, StocksFrom, CutI32, CutI8, CutU8, AsI16,
         CutBits, Restocked,
      FieldsOk, RowFits, Holds, Found, AllFound, ShipCells, StocksOk;
  }

  /** A restored ship is dumped just as it was. */
  lemma {:induction false} ShipDumpsSame(s: Ship)
    requires ShipOk(s)
    ensures Tokens(ShipCells(ShipRestored(s))) == Tokens(ShipCells(s)) && ShipOk(ShipRestored(s))
  {
    ShipRowFits(s);
    var c, c' := ShipCells(s), ShipCells(ShipRestored(s));
    StockCellsStay(s.items);
    forall i | 0 <= i < |c|
      ensures Token(c'[i]) == Token(c[i])
    {
      assert c'[i] == Reread(c[i]);
      RereadToken(c[i]);
    }
  }

  /** What of a ship survives being dumped and loaded, exactly. */
  lemma {:induction false} ShipSurvives(s: Ship)
    requires ShipOk(s)
    ensures var t := ShipRestored(s);
            (t.fleet == s.fleet <==> s.fleet != '-' && s.fleet != '\0')
            && (t.items == s.items <==> s.items[OIL] == 0 && s.items[UW] == 0)
            && (t.name == s.name <==> '_' !in s.name)
  {
    RereadIsSame(Letter(s.fleet));
    RestockedIsSame(s.items);
    RereadIsSame(Str(s.name));
  }

  // ---------------------------------------------------------------------------------------------
  // Planes
  // ---------------------------------------------------------------------------------------------

  datatype Plane = Plane(
    uid: int, own: int, x: int, y: int, planeType: int, effic: int, mobil: int, off: bool, tech: int, wing: char,
    opx: int, opy: int, mission: int, missionRadius: int, range: int, harden: int, ship: int, land: int, flags: int,
    access: int, theta: real)

  const PLANE_FIELDS := [
    "uid", "own", "x", "y", "type", "eff", "mobil", "tech", "wing", "range", "harden", "ship", "land", "flags"]

  function PlaneCells(s: Plane): (r: seq<Cell>)
    ensures |r| == |PLANE_FIELDS|
  {
    [Num(s.uid), Num(s.own), Num(s.x), Num(s.y), Num(s.planeType), Num(s.effic), Num(s.mobil), Num(s.tech),
     Letter(s.wing), Num(s.range), Num(s.harden), Num(s.ship), Num(s.land), Num(s.flags)]
  }

  /** One more than all defined flags together. */
  const PLANE_FLAGS := 0x8

  function PlaneFrom(row: Row): Result<Plane> {
    var uid :- GetI32(row, "uid");
    var own :- GetU8(row, "own");
    var x :- GetI16(row, "x");
    var y :- GetI16(row, "y");
    var planeType :- GetI8(row, "type");
    var effic :- GetI8(row, "eff");
    var mobil :- GetI8(row, "mobil");
    var tech :- GetI16(row, "tech");
    var wing :- GetChar(row, "wing");
    var range :- GetU8(row, "range");
    var harden :- GetI8(row, "harden");
    var ship :- GetI32(row, "ship");
    var land :- GetI32(row, "land");
    var flags :- GetFlags(row, "flags", PLANE_FLAGS);
    Ok(Plane(uid, own, x, y, planeType, effic, mobil, false, tech, wing, 0, 0, 0, 0, range, harden, ship, land, flags,
             0, 0.0))
  }

  /** Every field is within its type. */
  ghost predicate PlaneOk(s: Plane) {
    IsI32(s.uid) && IsU8(s.own) && IsI16(s.x) && IsI16(s.y) && IsI8(s.planeType) && IsI8(s.effic) && IsI8(s.mobil)
    && IsI16(s.tech) && Holds(Letter(s.wing)) && IsU8(s.range) && IsI8(s.harden) && IsI32(s.ship) && IsI32(s.land)
    && 0 <= s.flags < PLANE_FLAGS
  }

  /** A plane that was dumped and loaded. */
  function PlaneRestored(s: Plane): Plane {
    s.(wing := Relettered(s.wing), off := false, opx := 0, opy := 0, mission := 0, missionRadius := 0, access := 0,
       theta := 0.0)
  }

  lemma {:induction false} PlaneFieldsAreWords()
    ensures forall i :: 0 <= i < |PLANE_FIELDS| ==> IsWord(PLANE_FIELDS[i])
  {}

  lemma {:induction false} PlaneFieldsOk()
    ensures FieldsOk(PLANE_FIELDS)
  {
    PlaneFieldsAreWords();
    hide IsWord;
  }

  lemma {:induction false} PlaneRowFits(s: Plane)
    requires PlaneOk(s)
    ensures RowFits(PlaneCells(s), PLANE_FIELDS)
  {}

  ghost predicate PlaneFoundFirst(row: Row, s: Plane) {
    GetI64(row, "uid") == Ok(s.uid) && GetI64(row, "own") == Ok(s.own) && GetI64(row, "x") == Ok(s.x)
    && GetI64(row, "y") == Ok(s.y) && GetI64(row, "type") == Ok(s.planeType) && GetI64(row, "eff") == Ok(s.effic)
    && GetI64(row, "mobil") == Ok(s.mobil)
  }

  lemma {:induction false} PlaneFindsFirst(row: Row, s: Plane)
    requires AllFound(row, PLANE_FIELDS, PlaneCells(s))
    ensures PlaneFoundFirst(row, s)
  {
    hide GetI64, GetStr, GetChar, GetDec, Respaced, Relettered, AllFound, StockOf;
    FoundAt(row, PLANE_FIELDS, PlaneCells(s), 0);
    FoundAt(row, PLANE_FIELDS, PlaneCells(s), 1);
    FoundAt(row, PLANE_FIELDS, PlaneCells(s), 2);
    FoundAt(row, PLANE_FIELDS, PlaneCells(s), 3);
    FoundAt(row, PLANE_FIELDS, PlaneCells(s), 4);
    FoundAt(row, PLANE_FIELDS, PlaneCells(s), 5);
    FoundAt(row, PLANE_FIELDS, PlaneCells(s), 6);
  }

  ghost predicate PlaneFoundLast(row: Row, s: Plane) {
    GetI64(row, "tech") == Ok(s.tech) && GetChar(row, "wing") == Ok(Relettered(s.wing))
    && GetI64(row, "range") == Ok(s.range) && GetI64(row, "harden") == Ok(s.harden)
    && GetI64(row, "ship") == Ok(s.ship) && GetI64(row, "land") == Ok(s.land) && GetI64(row, "flags") == Ok(s.flags)
  }

  lemma {:induction false} PlaneFindsLast(row: Row, s: Plane)
    requires AllFound(row, PLANE_FIELDS, PlaneCells(s))
    ensures PlaneFoundLast(row, s)
  {
    hide GetI64, GetStr, GetChar, GetDec, Respaced, Relettered, AllFound, StockOf;
    FoundAt(row, PLANE_FIELDS, PlaneCells(s), 7);
    FoundAt(row, PLANE_FIELDS, PlaneCells(s), 8);
    FoundAt(row, PLANE_FIELDS, PlaneCells(s), 9);
    FoundAt(row, PLANE_FIELDS, PlaneCells(s), 10);
    FoundAt(row, PLANE_FIELDS, PlaneCells(s), 11);
    FoundAt(row, PLANE_FIELDS, PlaneCells(s), 12);
    FoundAt(row, PLANE_FIELDS, PlaneCells(s), 13);
  }

  /** The values of a plane under their names. */
  ghost predicate PlaneFound(row: Row, s: Plane) {
    PlaneFoundFirst(row, s) && PlaneFoundLast(row, s)
  }

  lemma {:induction false} PlaneIsFound(row: Row, s: Plane)
    requires PlaneOk(s) && AllFound(row, PLANE_FIELDS, PlaneCells(s))
    ensures PlaneFound(row, s)
  {
    hide AllFound, PlaneFoundFirst, PlaneFoundLast, StocksFrom, Restocked;
    PlaneFindsFirst(row, s);
    PlaneFindsLast(row, s);

  }

  /** Every dumped field of a plane is restored, but for underscores and dashes; the others are reset. */
  lemma {:induction false} PlaneIsRestored(s: Plane)
    requires PlaneOk(s)
    ensures PlaneFrom(Reading(PLANE_FIELDS, PlaneCells(s))) == Ok(PlaneRestored(s))
  {
    PlaneFieldsOk();
    PlaneRowFits(s);
    GettersFind(PLANE_FIELDS, PlaneCells(s));
    PlaneIsFound(Reading(PLANE_FIELDS, PlaneCells(s)), s);
    CutsKeep();
    hide GetI64, GetStr, GetChar, GetDec, Reading, Respaced, Relettered, StocksFrom, CutI32, CutI8, CutU8, AsI16,
         CutBits, Restocked,
      FieldsOk, RowFits, Holds, Found, AllFound, PlaneCells, StocksOk;
  }

  /** A restored plane is dumped just as it was. */
  lemma {:induction false} PlaneDumpsSame(s: Plane)
    requires PlaneOk(s)
    ensures Tokens(PlaneCells(PlaneRestored(s))) == Tokens(PlaneCells(s)) && PlaneOk(PlaneRestored(s))
  {
    PlaneRowFits(s);
    var c, c' := PlaneCells(s), PlaneCells(PlaneRestored(s));
    forall i | 0 <= i < |c|
      ensures Token(c'[i]) == Token(c[i])
    {
      assert c'[i] == Reread(c[i]);
      RereadToken(c[i]);
    }
  }

  /** What of a plane survives being dumped and loaded, exactly. */
  lemma {:induction false} PlaneSurvives(s: Plane)
    requires PlaneOk(s)
    ensures var t := PlaneRestored(s);
            (t.wing == s.wing <==> s.wing != '-' && s.wing != '\0')
  {
    RereadIsSame(Letter(s.wing));
  }

  // ---------------------------------------------------------------------------------------------
  // Land units
  // ---------------------------------------------------------------------------------------------

  datatype LandUnit = LandUnit(
    uid: int, own: int, x: int, y: int, landType: int, effic: int, mobil: int, off: bool, tech: int, army: char,
    opx: int, opy: int, mission: int, missionRadius: int, ship: int, harden: int, retreat: int, retreatFlags: int,
    retreatPath: string, scar: int, items: seq<int>, pstage: int, ptime: int, carriedByLand: int, access: int)

  const LAND_FIELDS := [
    "uid", "own", "x", "y", "type", "eff", "mobil", "tech", "army", "ship", "harden", "scar", "civil", "milit",
    "food", "shell", "gun", "petrol", "iron", "dust", "bar", "lcm", "hcm", "rad"]

  function LandUnitCells(s: LandUnit): (r: seq<Cell>)
    ensures |r| == |LAND_FIELDS|
  {
    [Num(s.uid), Num(s.own), Num(s.x), Num(s.y), Num(s.landType), Num(s.effic), Num(s.mobil), Num(s.tech),
     Letter(s.army), Num(s.ship), Num(s.harden), Num(s.scar), Num(StockOf(s.items, 0)), Num(StockOf(s.items, 1)),
     Num(StockOf(s.items, 8)), Num(StockOf(s.items, 2)), Num(StockOf(s.items, 3)), Num(StockOf(s.items, 4)),
     Num(StockOf(s.items, 5)), Num(StockOf(s.items, 6)), Num(StockOf(s.items, 7)), Num(StockOf(s.items, 10)),
     Num(StockOf(s.items, 11)), Num(StockOf(s.items, 13))]
  }

  function LandUnitFrom(row: Row): Result<LandUnit> {
    var uid :- GetI32(row, "uid");
    var own :- GetU8(row, "own");
    var x :- GetI16(row, "x");
    var y :- GetI16(row, "y");
    var landType :- GetI8(row, "type");
    var effic :- GetI8(row, "eff");
    var mobil :- GetI8(row, "mobil");
    var tech :- GetI16(row, "tech");
    var army :- GetChar(row, "army");
    var ship :- GetI32(row, "ship");
    var harden :- GetI8(row, "harden");
    var scar :- GetU8(row, "scar");
    Ok(LandUnit(uid, own, x, y, landType, effic, mobil, false, tech, army, 0, 0, 0, 0, ship, harden, 0, 0, "", scar,
                StocksFrom(row, |STOCKS|), 0, 0, -1, 0))
  }

  /** Every field is within its type. */
  ghost predicate LandUnitOk(s: LandUnit) {
    IsI32(s.uid) && IsU8(s.own) && IsI16(s.x) && IsI16(s.y) && IsI8(s.landType) && IsI8(s.effic) && IsI8(s.mobil)
    && IsI16(s.tech) && Holds(Letter(s.army)) && IsI32(s.ship) && IsI8(s.harden) && IsU8(s.scar) && StocksOk(s.items)
  }

  /** A land unit that was dumped and loaded. */
  function LandUnitRestored(s: LandUnit): LandUnit {
    s.(army := Relettered(s.army), items := Restocked(s.items), off := false, opx := 0, opy := 0, mission := 0,
       missionRadius := 0, retreat := 0, retreatFlags := 0, retreatPath := "", pstage := 0, ptime := 0,
       carriedByLand := -1, access := 0)
  }

  lemma {:induction false} LandUnitFieldsAreWords()
    ensures forall i :: 0 <= i < |LAND_FIELDS| ==> IsWord(LAND_FIELDS[i])
  {}

  lemma {:induction false} LandUnitFieldsOk()
    ensures FieldsOk(LAND_FIELDS)
  {
    LandUnitFieldsAreWords();
    hide IsWord;
  }

  lemma {:induction false} LandUnitRowFits(s: LandUnit)
    requires LandUnitOk(s)
    ensures RowFits(LandUnitCells(s), LAND_FIELDS)
  {}

  ghost predicate LandUnitFoundFirst(row: Row, s: LandUnit) {
    GetI64(row, "uid") == Ok(s.uid) && GetI64(row, "own") == Ok(s.own) && GetI64(row, "x") == Ok(s.x)
    && GetI64(row, "y") == Ok(s.y) && GetI64(row, "type") == Ok(s.landType) && GetI64(row, "eff") == Ok(s.effic)
  }

  lemma {:induction false} LandUnitFindsFirst(row: Row, s: LandUnit)
    requires AllFound(row, LAND_FIELDS, LandUnitCells(s))
    ensures LandUnitFoundFirst(row, s)
  {
    hide GetI64, GetStr, GetChar, GetDec, Respaced, Relettered, AllFound, StockOf;
    FoundAt(row, LAND_FIELDS, LandUnitCells(s), 0);
    FoundAt(row, LAND_FIELDS, LandUnitCells(s), 1);
    FoundAt(row, LAND_FIELDS, LandUnitCells(s), 2);
    FoundAt(row, LAND_FIELDS, LandUnitCells(s), 3);
    FoundAt(row, LAND_FIELDS, LandUnitCells(s), 4);
    FoundAt(row, LAND_FIELDS, LandUnitCells(s), 5);
  }

  ghost predicate LandUnitFoundLast(row: Row, s: LandUnit) {
    GetI64(row, "mobil") == Ok(s.mobil) && GetI64(row, "tech") == Ok(s.tech)
    && GetChar(row, "army") == Ok(Relettered(s.army)) && GetI64(row, "ship") == Ok(s.ship)
    && GetI64(row, "harden") == Ok(s.harden) && GetI64(row, "scar") == Ok(s.scar)
  }

  lemma {:induction false} LandUnitFindsLast(row: Row, s: LandUnit)
    requires AllFound(row, LAND_FIELDS, LandUnitCells(s))
    ensures LandUnitFoundLast(row, s)
  {
    hide GetI64, GetStr, GetChar, GetDec, Respaced, Relettered, AllFound, StockOf;
    FoundAt(row, LAND_FIELDS, LandUnitCells(s), 6);
    FoundAt(row, LAND_FIELDS, LandUnitCells(s), 7);
    FoundAt(row, LAND_FIELDS, LandUnitCells(s), 8);
    FoundAt(row, LAND_FIELDS, LandUnitCells(s), 9);
    FoundAt(row, LAND_FIELDS, LandUnitCells(s), 10);
    FoundAt(row, LAND_FIELDS, LandUnitCells(s), 11);
  }

  /** The values of a land unit under their names. */
  ghost predicate LandUnitFound(row: Row, s: LandUnit) {
    LandUnitFoundFirst(row, s) && LandUnitFoundLast(row, s) && StocksFrom(row, |STOCKS|) == Restocked(s.items)
  }

  /** The columns that name the stocks. */
  lemma {:induction false} LandUnitStocksNamed()
    ensures LAND_FIELDS[12..24] == STOCKS
  {
    var names := LAND_FIELDS[12..24];
    assert names[0] == STOCKS[0] && names[1] == STOCKS[1] && names[2] == STOCKS[2] && names[3] == STOCKS[3];
    assert names[4] == STOCKS[4] && names[5] == STOCKS[5] && names[6] == STOCKS[6] && names[7] == STOCKS[7];
    assert names[8] == STOCKS[8] && names[9] == STOCKS[9] && names[10] == STOCKS[10] && names[11] == STOCKS[11];
  }

  /** The columns that hold the stocks. */
  lemma {:induction false} LandUnitStocksStand(s: LandUnit)
    ensures LandUnitCells(s)[12..24] == StockCells(s.items)
  {
    hide StockOf;
    var values, stocks := LandUnitCells(s)[12..24], StockCells(s.items);
    assert values[0] == stocks[0] && values[1] == stocks[1] && values[2] == stocks[2] && values[3] == stocks[3];
    assert values[4] == stocks[4] && values[5] == stocks[5] && values[6] == stocks[6] && values[7] == stocks[7];
    assert values[8] == stocks[8] && values[9] == stocks[9] && values[10] == stocks[10] && values[11] == stocks[11];
  }

  lemma {:induction false} LandUnitIsFound(row: Row, s: LandUnit)
    requires LandUnitOk(s) && AllFound(row, LAND_FIELDS, LandUnitCells(s))
    ensures LandUnitFound(row, s)
  {
    hide AllFound, LandUnitFoundFirst, LandUnitFoundLast, StocksFrom, Restocked;
    LandUnitFindsFirst(row, s);
    LandUnitFindsLast(row, s);
    LandUnitStocksNamed();
    LandUnitStocksStand(s);
    hide LandUnitCells, StockCells;
    StocksAreWritten(row, LAND_FIELDS, LandUnitCells(s), 12, s.items);
  }

  /** Every dumped field of a land unit is restored, but for underscores and dashes; the others are reset. */
  lemma {:induction false} LandUnitIsRestored(s: LandUnit)
    requires LandUnitOk(s)
    ensures LandUnitFrom(Reading(LAND_FIELDS, LandUnitCells(s))) == Ok(LandUnitRestored(s))
  {
    LandUnitFieldsOk();
    LandUnitRowFits(s);
    GettersFind(LAND_FIELDS, LandUnitCells(s));
    LandUnitIsFound(Reading(LAND_FIELDS, LandUnitCells(s)), s);
    CutsKeep();
    hide GetI64, GetStr, GetChar, GetDec, Reading, Respaced, Relettered, StocksFrom, CutI32, CutI8, CutU8, AsI16,
         CutBits, Restocked,
      FieldsOk, RowFits, Holds, Found, AllFound, LandUnitCells, StocksOk;
  }

  /** A restored land unit is dumped just as it was. */
  lemma {:induction false} LandUnitDumpsSame(s: LandUnit)
    requires LandUnitOk(s)
    ensures Tokens(LandUnitCells(LandUnitRestored(s))) == Tokens(LandUnitCells(s)) && LandUnitOk(LandUnitRestored(s))
  {
    LandUnitRowFits(s);
    var c, c' := LandUnitCells(s), LandUnitCells(LandUnitRestored(s));
    StockCellsStay(s.items);
    forall i | 0 <= i < |c|
      ensures Token(c'[i]) == Token(c[i])
    {
      assert c'[i] == Reread(c[i]);
      RereadToken(c[i]);
    }
  }

  /** What of a land unit survives being dumped and loaded, exactly. */
  lemma {:induction false} LandUnitSurvives(s: LandUnit)
    requires LandUnitOk(s)
    ensures var t := LandUnitRestored(s);
            (t.army == s.army <==> s.army != '-' && s.army != '\0')
            && (t.items == s.items <==> s.items[OIL] == 0 && s.items[UW] == 0)
  {
    RereadIsSame(Letter(s.army));
    RestockedIsSame(s.items);
  }

  // ---------------------------------------------------------------------------------------------
  // Nukes
  // ---------------------------------------------------------------------------------------------

  datatype Nuke = Nuke(
    uid: int, own: int, x: int, y: int, nukeType: int, effic: int, tech: int, stockpile: char, plane: int)

  const NUKE_FIELDS := [
    "uid", "own", "x", "y", "type", "eff", "tech", "stockpile", "plane"]

  function NukeCells(s: Nuke): (r: seq<Cell>)
    ensures |r| == |NUKE_FIELDS|
  {
    [Num(s.uid), Num(s.own), Num(s.x), Num(s.y), Num(s.nukeType), Num(s.effic), Num(s.tech), Letter(s.stockpile),
     Num(s.plane)]
  }

  function NukeFrom(row: Row): Result<Nuke> {
    var uid :- GetI32(row, "uid");
    var own :- GetU8(row, "own");
    var x :- GetI16(row, "x");
    var y :- GetI16(row, "y");
    var nukeType :- GetI8(row, "type");
    var effic :- GetI8(row, "eff");
    var tech :- GetI16(row, "tech");
    var stockpile :- GetChar(row, "stockpile");
    var plane :- GetI32(row, "plane");
    Ok(Nuke(uid, own, x, y, nukeType, effic, tech, stockpile, plane))
  }

  /** Every field is within its type. */
  ghost predicate NukeOk(s: Nuke) {
    IsI32(s.uid) && IsU8(s.own) && IsI16(s.x) && IsI16(s.y) && IsI8(s.nukeType) && IsI8(s.effic) && IsI16(s.tech)
    && Holds(Letter(s.stockpile)) && IsI32(s.plane)
  }

  /** A nuke that was dumped and loaded. */
  function NukeRestored(s: Nuke): Nuke {
    s.(stockpile := Relettered(s.stockpile))
  }

  lemma {:induction false} NukeFieldsAreWords()
    ensures forall i :: 0 <= i < |NUKE_FIELDS| ==> IsWord(NUKE_FIELDS[i])
  {}

  lemma {:induction false} NukeFieldsOk()
    ensures FieldsOk(NUKE_FIELDS)
  {
    NukeFieldsAreWords();
    hide IsWord;
  }

  lemma {:induction false} NukeRowFits(s: Nuke)
    requires NukeOk(s)
    ensures RowFits(NukeCells(s), NUKE_FIELDS)
  {}

  ghost predicate NukeFoundFirst(row: Row, s: Nuke) {
    GetI64(row, "uid") == Ok(s.uid) && GetI64(row, "own") == Ok(s.own) && GetI64(row, "x") == Ok(s.x)
    && GetI64(row, "y") == Ok(s.y) && GetI64(row, "type") == Ok(s.nukeType)
  }

  lemma {:induction false} NukeFindsFirst(row: Row, s: Nuke)
    requires AllFound(row, NUKE_FIELDS, NukeCells(s))
    ensures NukeFoundFirst(row, s)
  {
    hide GetI64, GetStr, GetChar, GetDec, Respaced, Relettered, AllFound, StockOf;
    FoundAt(row, NUKE_FIELDS, NukeCells(s), 0);
    FoundAt(row, NUKE_FIELDS, NukeCells(s), 1);
    FoundAt(row, NUKE_FIELDS, NukeCells(s), 2);
    FoundAt(row, NUKE_FIELDS, NukeCells(s), 3);
    FoundAt(row, NUKE_FIELDS, NukeCells(s), 4);
  }

  ghost predicate NukeFoundLast(row: Row, s: Nuke) {
    GetI64(row, "eff") == Ok(s.effic) && GetI64(row, "tech") == Ok(s.tech)
    && GetChar(row, "stockpile") == Ok(Relettered(s.stockpile)) && GetI64(row, "plane") == Ok(s.plane)
  }

  lemma {:induction false} NukeFindsLast(row: Row, s: Nuke)
    requires AllFound(row, NUKE_FIELDS, NukeCells(s))
    ensures NukeFoundLast(row, s)
  {
    hide GetI64, GetStr, GetChar, GetDec, Respaced, Relettered, AllFound, StockOf;
    FoundAt(row, NUKE_FIELDS, NukeCells(s), 5);
    FoundAt(row, NUKE_FIELDS, NukeCells(s), 6);
    FoundAt(row, NUKE_FIELDS, NukeCells(s), 7);
    FoundAt(row, NUKE_FIELDS, NukeCells(s), 8);
  }

  /** The values of a nuke under their names. */
  ghost predicate NukeFound(row: Row, s: Nuke) {
    NukeFoundFirst(row, s) && NukeFoundLast(row, s)
  }

  lemma {:induction false} NukeIsFound(row: Row, s: Nuke)
    requires NukeOk(s) && AllFound(row, NUKE_FIELDS, NukeCells(s))
    ensures NukeFound(row, s)
  {
    hide AllFound, NukeFoundFirst, NukeFoundLast, StocksFrom, Restocked;
    NukeFindsFirst(row, s);
    NukeFindsLast(row, s);

  }

  /** Every dumped field of a nuke is restored, but for underscores and dashes; the others are reset. */
  lemma {:induction false} NukeIsRestored(s: Nuke)
    requires NukeOk(s)
    ensures NukeFrom(Reading(NUKE_FIELDS, NukeCells(s))) == Ok(NukeRestored(s))
  {
    NukeFieldsOk();
    NukeRowFits(s);
    GettersFind(NUKE_FIELDS, NukeCells(s));
    NukeIsFound(Reading(NUKE_FIELDS, NukeCells(s)), s);
    CutsKeep();
    hide GetI64, GetStr, GetChar, GetDec, Reading, Respaced, Relettered, StocksFrom, CutI32, CutI8, CutU8, AsI16,
         CutBits, Restocked,
      FieldsOk, RowFits, Holds, Found, AllFound, NukeCells, StocksOk;
  }

  /** A restored nuke is dumped just as it was. */
  lemma {:induction false} NukeDumpsSame(s: Nuke)
    requires NukeOk(s)
    ensures Tokens(NukeCells(NukeRestored(s))) == Tokens(NukeCells(s)) && NukeOk(NukeRestored(s))
  {
    NukeRowFits(s);
    var c, c' := NukeCells(s), NukeCells(NukeRestored(s));
    forall i | 0 <= i < |c|
      ensures Token(c'[i]) == Token(c[i])
    {
      assert c'[i] == Reread(c[i]);
      RereadToken(c[i]);
    }
  }

  /** What of a nuke survives being dumped and loaded, exactly. */
  lemma {:induction false} NukeSurvives(s: Nuke)
    requires NukeOk(s)
    ensures var t := NukeRestored(s);
            (t.stockpile == s.stockpile <==> s.stockpile != '-' && s.stockpile != '\0')
  {
    RereadIsSame(Letter(s.stockpile));
  }
}
