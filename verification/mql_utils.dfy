/**
 * The pure part of the MQL utility functions: timeframe classification, the tables that render
 * enum codes as text, the decimal fallback of PeriodDescription, the older char-by-char string
 * comparison and the slicing of the terminal's file-version words.
 *
 * Enum arguments arrive from MQL as plain integers, so every table takes an int code and answers
 * None (a NULL pointer) for codes it does not list.
 */
module MqlUtils {
  import opened Expander
  import StringUtil

  // ---------------------------------------------------------------------------------------------
  // Timeframes (minutes per bar)

  const PERIOD_M1: int := 1
  const PERIOD_M5: int := 5
  const PERIOD_M15: int := 15
  const PERIOD_M30: int := 30
  const PERIOD_H1: int := 60
  const PERIOD_H4: int := 240
  const PERIOD_D1: int := 1440
  const PERIOD_W1: int := 10080
  const PERIOD_MN1: int := 43200
  const PERIOD_Q1: int := 129600

  /** The nine timeframes MetaTrader offers itself. */
  const STD_TIMEFRAMES: set<int> := {1, 5, 15, 30, 60, 240, 1440, 10080, 43200}

  function IsStdTimeframe(timeframe: int): (r: bool)
    ensures r <==> timeframe in STD_TIMEFRAMES
  {
    if timeframe == PERIOD_M1 then true
    else if timeframe == PERIOD_M5 then true
    else if timeframe == PERIOD_M15 then true
    else if timeframe == PERIOD_M30 then true
    else if timeframe == PERIOD_H1 then true
    else if timeframe == PERIOD_H4 then true
    else if timeframe == PERIOD_D1 then true
    else if timeframe == PERIOD_W1 then true
    else if timeframe == PERIOD_MN1 then true
    else false
  }

  function IsCustomTimeframe(timeframe: int): (r: bool)
    ensures r <==> timeframe > 0 && timeframe !in STD_TIMEFRAMES
    ensures r ==> !IsStdTimeframe(timeframe)
  {
    if timeframe <= 0 then false else !IsStdTimeframe(timeframe)
  }

  /** Every positive id is exactly one of standard and custom; no id is both. */
  lemma TimeframeClassesPartitionPositiveIds(timeframe: int)
    ensures timeframe > 0 ==> IsStdTimeframe(timeframe) != IsCustomTimeframe(timeframe)
    ensures timeframe <= 0 ==> !IsStdTimeframe(timeframe) && !IsCustomTimeframe(timeframe)
  {
  }

  /** The quarter timeframe is custom, yet PeriodToStr and PeriodDescription name it. */
  lemma QuarterIsCustomButNamed()
    ensures IsCustomTimeframe(PERIOD_Q1)
    ensures PeriodToStr(PERIOD_Q1) == Some("PERIOD_Q1")
    ensures PeriodDescription(PERIOD_Q1) == "Q1"
  {
  }

  // ---------------------------------------------------------------------------------------------
  // Enum tables. NULL (code 0) is listed in every table except the uninitialize reasons, where
  // code 0 is the reason "undefined".

  function ModuleTypeToStr(code: int): (r: Option<string>)
    ensures r.Some? <==> code == 0 || ModuleTypeOf(code).Some?
    ensures r.Some? && code != 0 ==> |r.value| > 3 && r.value[..3] == "MT_"
  {
    if code == 0 then Some("NULL")
    else if code == ModuleTypeCode(MT_Expert) then Some("MT_EXPERT")
    else if code == ModuleTypeCode(MT_Script) then Some("MT_SCRIPT")
    else if code == ModuleTypeCode(MT_Indicator) then Some("MT_INDICATOR")
    else if code == ModuleTypeCode(MT_Library) then Some("MT_LIBRARY")
    else None
  }

  function ModuleTypeDescription(code: int): (r: Option<string>)
    ensures r.Some? <==> ModuleTypeToStr(code).Some?
  {
    if code == 0 then Some("NULL")
    else if code == ModuleTypeCode(MT_Expert) then Some("Expert")
    else if code == ModuleTypeCode(MT_Script) then Some("Script")
    else if code == ModuleTypeCode(MT_Indicator) then Some("Indicator")
    else if code == ModuleTypeCode(MT_Library) then Some("Library")
    else None
  }

  function ProgramTypeToStr(code: int): (r: Option<string>)
    ensures r.Some? <==> code == 0 || ProgramTypeOf(code).Some?
    ensures r.Some? && code != 0 ==> |r.value| > 3 && r.value[..3] == "PT_"
  {
    if code == 0 then Some("NULL")
    else if code == ProgramTypeCode(PT_Expert) then Some("PT_EXPERT")
    else if code == ProgramTypeCode(PT_Script) then Some("PT_SCRIPT")
    else if code == ProgramTypeCode(PT_Indicator) then Some("PT_INDICATOR")
    else None
  }

  function ProgramTypeDescription(code: int): (r: Option<string>)
    ensures r.Some? <==> ProgramTypeToStr(code).Some?
  {
    if code == 0 then Some("NULL")
    else if code == ProgramTypeCode(PT_Expert) then Some("Expert")
    else if code == ProgramTypeCode(PT_Script) then Some("Script")
    else if code == ProgramTypeCode(PT_Indicator) then Some("Indicator")
    else None
  }

  /**
   * A program and the main module it runs are described alike: the description of a program type
   * is the description of its main module type.
   */
  lemma ProgramAndMainModuleShareDescription(p: ProgramType)
    ensures ProgramTypeDescription(ProgramTypeCode(p)) == ModuleTypeDescription(ModuleTypeCode(MainModuleType(p)))
  {
  }

  function RootFunctionToStr(code: int): (r: Option<string>)
    ensures r.Some? <==> code == 0 || RootFunctionOf(code).Some?
    ensures r.Some? && code != 0 ==> |r.value| > 3 && r.value[..3] == "RF_"
  {
    if code == 0 then Some("NULL")
    else if code == RootFunctionCode(RF_Init) then Some("RF_INIT")
    else if code == RootFunctionCode(RF_Start) then Some("RF_START")
    else if code == RootFunctionCode(RF_Deinit) then Some("RF_DEINIT")
    else None
  }

  /** The MQL function name behind a root function id. */
  function RootFunctionName(code: int): (r: Option<string>)
    ensures r.Some? <==> RootFunctionToStr(code).Some?
  {
    if code == 0 then Some("NULL")
    else if code == RootFunctionCode(RF_Init) then Some("init")
    else if code == RootFunctionCode(RF_Start) then Some("start")
    else if code == RootFunctionCode(RF_Deinit) then Some("deinit")
    else None
  }

  function UninitializeReasonToStr(code: int): (r: Option<string>)
    ensures r.Some? <==> UninitReasonOf(code).Some?
    ensures r.Some? ==> |r.value| > 7 && r.value[..7] == "REASON_"
  {
    if code == UninitReasonCode(UR_Undefined) then Some("REASON_UNDEFINED")
    else if code == UninitReasonCode(UR_Remove) then Some("REASON_REMOVE")
    else if code == UninitReasonCode(UR_Recompile) then Some("REASON_RECOMPILE")
    else if code == UninitReasonCode(UR_ChartChange) then Some("REASON_CHARTCHANGE")
    else if code == UninitReasonCode(UR_ChartClose) then Some("REASON_CHARTCLOSE")
    else if code == UninitReasonCode(UR_Parameters) then Some("REASON_PARAMETERS")
    else if code == UninitReasonCode(UR_Account) then Some("REASON_ACCOUNT")
    else if code == UninitReasonCode(UR_Template) then Some("REASON_TEMPLATE")
    else if code == UninitReasonCode(UR_InitFailed) then Some("REASON_INITFAILED")
    else if code == UninitReasonCode(UR_Close) then Some("REASON_CLOSE")
    else None
  }

  /** No two listed codes share a text, in any of the tables. */
  lemma TablesAreInjective(a: int, b: int)
    ensures ModuleTypeToStr(a).Some? && ModuleTypeToStr(a) == ModuleTypeToStr(b) ==> a == b
    ensures ModuleTypeDescription(a).Some? && ModuleTypeDescription(a) == ModuleTypeDescription(b) ==> a == b
    ensures ProgramTypeToStr(a).Some? && ProgramTypeToStr(a) == ProgramTypeToStr(b) ==> a == b
    ensures ProgramTypeDescription(a).Some? && ProgramTypeDescription(a) == ProgramTypeDescription(b) ==> a == b
    ensures RootFunctionToStr(a).Some? && RootFunctionToStr(a) == RootFunctionToStr(b) ==> a == b
    ensures RootFunctionName(a).Some? && RootFunctionName(a) == RootFunctionName(b) ==> a == b
    ensures UninitializeReasonToStr(a).Some? && UninitializeReasonToStr(a) == UninitializeReasonToStr(b) ==> a == b
  {
  }

  // ---------------------------------------------------------------------------------------------
  // Periods

  function PeriodToStr(period: int): (r: Option<string>)
    ensures r.Some? <==> period == 0 || period in STD_TIMEFRAMES || period == PERIOD_Q1
  {
    if period == 0 then Some("NULL")
    else if period == PERIOD_M1 then Some("PERIOD_M1")
    else if period == PERIOD_M5 then Some("PERIOD_M5")
    else if period == PERIOD_M15 then Some("PERIOD_M15")
    else if period == PERIOD_M30 then Some("PERIOD_M30")
    else if period == PERIOD_H1 then Some("PERIOD_H1")
    else if period == PERIOD_H4 then Some("PERIOD_H4")
    else if period == PERIOD_D1 then Some("PERIOD_D1")
    else if period == PERIOD_W1 then Some("PERIOD_W1")
    else if period == PERIOD_MN1 then Some("PERIOD_MN1")
    else if period == PERIOD_Q1 then Some("PERIOD_Q1")
    else None
  }

  /** The short name of a listed period, or None where PeriodDescription falls back to decimal. */
  function PeriodName(period: int): (r: Option<string>)
    ensures r.Some? <==> PeriodToStr(period).Some?
    ensures r.Some? ==> |r.value| > 0 && IsLetter(r.value[0])
  {
    if period == 0 then Some("NULL")
    else if period == PERIOD_M1 then Some("M1")
    else if period == PERIOD_M5 then Some("M5")
    else if period == PERIOD_M15 then Some("M15")
    else if period == PERIOD_M30 then Some("M30")
    else if period == PERIOD_H1 then Some("H1")
    else if period == PERIOD_H4 then Some("H4")
    else if period == PERIOD_D1 then Some("D1")
    else if period == PERIOD_W1 then Some("W1")
    else if period == PERIOD_MN1 then Some("MN1")
    else if period == PERIOD_Q1 then Some("Q1")
    else None
  }

  predicate IsLetter(c: char) {
    'A' <= c <= 'Z'
  }

  /** Never NULL: a listed period gets its name, any other id its decimal rendering ("%d"). */
  function PeriodDescription(period: int): (r: string)
    ensures PeriodToStr(period).None? ==> r == IntToDecimal(period)
    ensures |r| > 0
  {
    match PeriodName(period)
    case Some(name) => name
    case None => IntToDecimal(period)
  }

  /** Different ids always get different descriptions, listed or not. */
  lemma PeriodDescriptionIsInjective(a: int, b: int)
    ensures PeriodDescription(a) == PeriodDescription(b) ==> a == b
  {
    if PeriodDescription(a) == PeriodDescription(b) {
      var na, nb := PeriodName(a), PeriodName(b);
      if na.Some? && nb.Some? {
      } else if na.None? && nb.None? {
        DecimalRoundTrip(a);
        DecimalRoundTrip(b);
      } else if na.Some? {
        DecimalStartsWithDigitOrSign(b);
      } else {
        DecimalStartsWithDigitOrSign(a);
      }
    }
  }

  // ---------------------------------------------------------------------------------------------
  // Decimal rendering, as printf "%d" writes it, and its inverse

  function DigitChar(d: nat): (c: char)
    requires d < 10
    ensures '0' <= c <= '9'
  {
    ('0' as int + d) as char
  }

  predicate AllDigits(s: string) {
    forall i :: 0 <= i < |s| ==> '0' <= s[i] <= '9'
  }

  function NatToDecimal(n: nat): (s: string)
    ensures |s| > 0 && AllDigits(s)
    decreases n
  {
    if n < 10 then [DigitChar(n)] else NatToDecimal(n / 10) + [DigitChar(n % 10)]
  }

  function IntToDecimal(n: int): (s: string)
    ensures |s| > 0
    ensures s[0] == '-' <==> n < 0
    ensures n >= 0 ==> AllDigits(s)
    ensures n < 0 ==> AllDigits(s[1..])
  {
    if n < 0 then "-" + NatToDecimal(-n) else NatToDecimal(n)
  }

  /** The value of a string of decimal digits. */
  function DecimalValue(s: string): nat
    requires AllDigits(s)
  {
    if s == [] then 0 else DecimalValue(s[..|s| - 1]) * 10 + (s[|s| - 1] as int - '0' as int)
  }

  /** Reads back what IntToDecimal writes: an optional minus sign followed by digits. */
  function ParseDecimal(s: string): int {
    if |s| > 0 && s[0] == '-' && AllDigits(s[1..]) then 0 - DecimalValue(s[1..]) as int
    else if AllDigits(s) then DecimalValue(s)
    else 0
  }

  lemma {:induction false} NatDecimalRoundTrip(n: nat)
    ensures DecimalValue(NatToDecimal(n)) == n
    decreases n
  {
    if n >= 10 {
      NatDecimalRoundTrip(n / 10);
      var s := NatToDecimal(n);
      assert s[..|s| - 1] == NatToDecimal(n / 10);
    }
  }

  lemma DecimalRoundTrip(n: int)
    ensures ParseDecimal(IntToDecimal(n)) == n
  {
    if n < 0 {
      NatDecimalRoundTrip(-n);
      assert IntToDecimal(n)[1..] == NatToDecimal(-n);
    } else {
      NatDecimalRoundTrip(n);
    }
  }

  lemma DecimalStartsWithDigitOrSign(n: int)
    ensures IntToDecimal(n)[0] == '-' || '0' <= IntToDecimal(n)[0] <= '9'
  {
  }

  // ---------------------------------------------------------------------------------------------
  // The older StringCompare: NULL handling, then lengths, then a character loop.

  method StringCompareCharwise(s1: StringUtil.CStr, s2: StringUtil.CStr) returns (r: bool)
    ensures r == StringUtil.StringCompare(s1, s2)
  {
    // equal pointers: two NULLs (equal non-NULL pointers reach the same answer below)
    if s1.None? && s2.None? {
      return true;
    }
    if s1.None? || s2.None? {
      return false;
    }
    var a, b := s1.value, s2.value;
    if |a| != |b| {
      return false;
    }
    var i := 0;
    while i < |a|
      invariant 0 <= i <= |a|
      invariant a[..i] == b[..i]
    {
      if a[i] != b[i] {
        return false;
      }
      i := i + 1;
    }
    assert a == a[..i] && b == b[..i];
    return true;
  }

  // ---------------------------------------------------------------------------------------------
  // Terminal version numbers

  /** The four numbers of a file version; each is a 16-bit half of one of the two version words. */
  datatype Version = Version(major: bv32, minor: bv32, hotfix: bv32, build: bv32)

  /** Major and minor are the high and low halves of the MS word, hotfix and build those of the LS word. */
  function VersionNumbers(fileVersionMS: bv32, fileVersionLS: bv32): (v: Version)
    ensures v.major <= 0xffff && v.minor <= 0xffff && v.hotfix <= 0xffff && v.build <= 0xffff
    ensures (v.major << 16) | v.minor == fileVersionMS
    ensures (v.hotfix << 16) | v.build == fileVersionLS
  {
    Version((fileVersionMS >> 16) & 0xffff, fileVersionMS & 0xffff,
            (fileVersionLS >> 16) & 0xffff, fileVersionLS & 0xffff)
  }

  /** The slicing loses nothing: different version words give different numbers. */
  lemma VersionNumbersAreInjective(ms1: bv32, ls1: bv32, ms2: bv32, ls2: bv32)
    ensures VersionNumbers(ms1, ls1) == VersionNumbers(ms2, ls2) ==> ms1 == ms2 && ls1 == ls2
  {
  }

  /** An out-parameter of GetTerminalVersionNumbers: a uint variable the caller owns. */
  class Cell {
    var value: bv32

    constructor()
      ensures value == 0
    {
      value := 0;
    }
  }

  /**
   * The result assignment of GetTerminalVersionNumbers: major, minor, hotfix, build in this order.
   * When out-parameters alias, the later assignment wins.
   */
  method AssignVersion(v: Version, major: Cell, minor: Cell, hotfix: Cell, build: Cell)
    modifies major, minor, hotfix, build
    ensures build.value == v.build
    ensures hotfix != build ==> hotfix.value == v.hotfix
    ensures minor != hotfix && minor != build ==> minor.value == v.minor
    ensures major != minor && major != hotfix && major != build ==> major.value == v.major
  {
    major.value := v.major;
    minor.value := v.minor;
    hotfix.value := v.hotfix;
    build.value := v.build;
  }

  /**
   * GetTerminalBuild passes one variable for all four out-parameters and so receives the build
   * number, the last one assigned. fileVersion is the executable's pair of version words, or None
   * if reading the version resource failed, in which case the result is 0.
   */
  method TerminalBuild(fileVersion: Option<(bv32, bv32)>) returns (build: bv32)
    ensures fileVersion.None? ==> build == 0
    ensures fileVersion.Some? ==> build == fileVersion.value.1 & 0xffff
  {
    if fileVersion.None? {
      return 0;
    }
    var cell := new Cell();
    AssignVersion(VersionNumbers(fileVersion.value.0, fileVersion.value.1), cell, cell, cell, cell);
    build := cell.value;
  }
}
