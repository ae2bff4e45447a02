/**
 * Shared vocabulary of the expander: the closed variant sets that describe an MQL program and its
 * lifecycle, the 32-bit constants CLR_NONE and NO_ERROR, and the tiny helpers that return a constant
 * or their first argument.
 *
 * The numeric codes behind the C enums are the DLL's own PROGRAMTYPE_*, MODULETYPE_*, LAUNCHTYPE_*,
 * ROOTFUNCTION_*, INITREASON_* and UNINITREASON_* defines, which live in shared/defines.h; that
 * header is not part of this model and the values below are assumed: flag bits 1, 2, 4, 8 for the
 * program and module types, consecutive numbers from 1 for the others, and 0..9 for the
 * uninitialize reasons.
 */
module Expander {

  datatype Option<+T> = None | Some(value: T)

  /** DWORD / uint / color: an unsigned 32-bit word. */
  newtype uint32 = x: int | 0 <= x < 0x1_0000_0000

  const CLR_NONE: uint32 := 0xFFFF_FFFF
  const NO_ERROR: int := 0
  /** MQL's EMPTY, returned by the _EMPTY helper. */
  const EMPTY: int := -1

  // ---------------------------------------------------------------------------------------------
  // MQL program types

  datatype ProgramType = PT_Indicator | PT_Expert | PT_Script

  const PROGRAMTYPE_INDICATOR := 1
  const PROGRAMTYPE_EXPERT := 2
  const PROGRAMTYPE_SCRIPT := 4

  function ProgramTypeCode(t: ProgramType): (c: int)
    ensures c > 0
  {
    match t
    case PT_Indicator => PROGRAMTYPE_INDICATOR
    case PT_Expert => PROGRAMTYPE_EXPERT
    case PT_Script => PROGRAMTYPE_SCRIPT
  }

  /** Interprets a raw C enum value; None for a value that names no variant. */
  function ProgramTypeOf(c: int): (r: Option<ProgramType>)
    ensures r.Some? ==> ProgramTypeCode(r.value) == c
    ensures forall t: ProgramType :: ProgramTypeCode(t) == c ==> r == Some(t)
  {
    if c == PROGRAMTYPE_INDICATOR then Some(PT_Indicator)
    else if c == PROGRAMTYPE_EXPERT then Some(PT_Expert)
    else if c == PROGRAMTYPE_SCRIPT then Some(PT_Script)
    else None
  }

  /** The type is closed over exactly three variants. */
  const AllProgramTypes: seq<ProgramType> := [PT_Indicator, PT_Expert, PT_Script]

  lemma ProgramTypeIsClosed(t: ProgramType)
    ensures t in AllProgramTypes
    ensures |AllProgramTypes| == 3
    ensures forall i, j :: 0 <= i < j < |AllProgramTypes| ==> AllProgramTypes[i] != AllProgramTypes[j]
  {
  }

  // ---------------------------------------------------------------------------------------------
  // MQL module types: the three program types plus Library

  datatype ModuleType = MT_Indicator | MT_Expert | MT_Script | MT_Library

  const MODULETYPE_INDICATOR := 1
  const MODULETYPE_EXPERT := 2
  const MODULETYPE_SCRIPT := 4
  const MODULETYPE_LIBRARY := 8

  function ModuleTypeCode(t: ModuleType): (c: int)
    ensures c > 0
  {
    match t
    case MT_Indicator => MODULETYPE_INDICATOR
    case MT_Expert => MODULETYPE_EXPERT
    case MT_Script => MODULETYPE_SCRIPT
    case MT_Library => MODULETYPE_LIBRARY
  }

  function ModuleTypeOf(c: int): (r: Option<ModuleType>)
    ensures r.Some? ==> ModuleTypeCode(r.value) == c
    ensures forall t: ModuleType :: ModuleTypeCode(t) == c ==> r == Some(t)
  {
    if c == MODULETYPE_INDICATOR then Some(MT_Indicator)
    else if c == MODULETYPE_EXPERT then Some(MT_Expert)
    else if c == MODULETYPE_SCRIPT then Some(MT_Script)
    else if c == MODULETYPE_LIBRARY then Some(MT_Library)
    else None
  }

  /** The module type of a program's main module: every program type has its own module type. */
  function MainModuleType(p: ProgramType): (m: ModuleType)
    ensures m != MT_Library
    ensures ModuleTypeCode(m) == ProgramTypeCode(p)
  {
    match p
    case PT_Indicator => MT_Indicator
    case PT_Expert => MT_Expert
    case PT_Script => MT_Script
  }

  const AllModuleTypes: seq<ModuleType> := [MT_Indicator, MT_Expert, MT_Script, MT_Library]

  /** Module types are exactly the main-module types of the three program types, plus Library. */
  lemma ModuleTypeIsClosed(m: ModuleType)
    ensures m in AllModuleTypes && |AllModuleTypes| == 4
    ensures m == MT_Library || exists p: ProgramType :: MainModuleType(p) == m
  {
    match m
    case MT_Indicator => assert MainModuleType(PT_Indicator) == m;
    case MT_Expert => assert MainModuleType(PT_Expert) == m;
    case MT_Script => assert MainModuleType(PT_Script) == m;
    case MT_Library =>
  }

  // ---------------------------------------------------------------------------------------------
  // Launch types

  datatype LaunchType = LT_Template | LT_Program | LT_Manual

  const LAUNCHTYPE_TEMPLATE := 1
  const LAUNCHTYPE_PROGRAM := 2
  const LAUNCHTYPE_MANUAL := 3

  function LaunchTypeCode(t: LaunchType): (c: int)
    ensures c > 0
  {
    match t
    case LT_Template => LAUNCHTYPE_TEMPLATE
    case LT_Program => LAUNCHTYPE_PROGRAM
    case LT_Manual => LAUNCHTYPE_MANUAL
  }

  function LaunchTypeOf(c: int): (r: Option<LaunchType>)
    ensures r.Some? ==> LaunchTypeCode(r.value) == c
    ensures forall t: LaunchType :: LaunchTypeCode(t) == c ==> r == Some(t)
  {
    if c == LAUNCHTYPE_TEMPLATE then Some(LT_Template)
    else if c == LAUNCHTYPE_PROGRAM then Some(LT_Program)
    else if c == LAUNCHTYPE_MANUAL then Some(LT_Manual)
    else None
  }

  // ---------------------------------------------------------------------------------------------
  // Root functions

  datatype RootFunction = RF_Init | RF_Start | RF_Deinit

  const ROOTFUNCTION_INIT := 1
  const ROOTFUNCTION_START := 2
  const ROOTFUNCTION_DEINIT := 3

  function RootFunctionCode(f: RootFunction): (c: int)
    ensures c > 0
  {
    match f
    case RF_Init => ROOTFUNCTION_INIT
    case RF_Start => ROOTFUNCTION_START
    case RF_Deinit => ROOTFUNCTION_DEINIT
  }

  function RootFunctionOf(c: int): (r: Option<RootFunction>)
    ensures r.Some? ==> RootFunctionCode(r.value) == c
    ensures forall f: RootFunction :: RootFunctionCode(f) == c ==> r == Some(f)
  {
    if c == ROOTFUNCTION_INIT then Some(RF_Init)
    else if c == ROOTFUNCTION_START then Some(RF_Start)
    else if c == ROOTFUNCTION_DEINIT then Some(RF_Deinit)
    else None
  }

  /** Exactly three launch types and three root functions: the codes 1..3 are each taken by one. */
  lemma LaunchTypeAndRootFunctionAreClosed()
    ensures forall c :: LaunchTypeOf(c).Some? <==> 1 <= c <= 3
    ensures forall t: LaunchType :: LaunchTypeOf(LaunchTypeCode(t)) == Some(t)
    ensures forall c :: RootFunctionOf(c).Some? <==> 1 <= c <= 3
    ensures forall f: RootFunction :: RootFunctionOf(RootFunctionCode(f)) == Some(f)
  {
  }

  // ---------------------------------------------------------------------------------------------
  // Initialize reasons (8 variants)

  datatype InitializeReason =
    | IR_User | IR_Template | IR_Program | IR_ProgramAfterTest
    | IR_Parameters | IR_TimeframeChange | IR_SymbolChange | IR_Recompile

  function InitReasonCode(r: InitializeReason): (c: int)
    ensures 1 <= c <= 8
  {
    match r
    case IR_User => 1
    case IR_Template => 2
    case IR_Program => 3
    case IR_ProgramAfterTest => 4
    case IR_Parameters => 5
    case IR_TimeframeChange => 6
    case IR_SymbolChange => 7
    case IR_Recompile => 8
  }

  function InitReasonOf(c: int): (r: Option<InitializeReason>)
    ensures r.Some? ==> InitReasonCode(r.value) == c
    ensures forall x: InitializeReason :: InitReasonCode(x) == c ==> r == Some(x)
  {
    match c
    case 1 => Some(IR_User)
    case 2 => Some(IR_Template)
    case 3 => Some(IR_Program)
    case 4 => Some(IR_ProgramAfterTest)
    case 5 => Some(IR_Parameters)
    case 6 => Some(IR_TimeframeChange)
    case 7 => Some(IR_SymbolChange)
    case 8 => Some(IR_Recompile)
    case _ => None
  }

  /** Exactly eight initialize reasons: the codes 1..8 are each taken by one reason. */
  lemma {:induction false} InitializeReasonCount()
    ensures forall c :: InitReasonOf(c).Some? <==> 1 <= c <= 8
    ensures forall r: InitializeReason :: InitReasonOf(InitReasonCode(r)) == Some(r)
  {
    forall c ensures InitReasonOf(c).Some? <==> 1 <= c <= 8 {
      if 1 <= c <= 8 {
        assert c in {1, 2, 3, 4, 5, 6, 7, 8};
      }
    }
  }

  // ---------------------------------------------------------------------------------------------
  // Uninitialize reasons (10 variants)

  datatype UninitializeReason =
    | UR_Undefined | UR_Remove | UR_Recompile | UR_ChartChange | UR_ChartClose
    | UR_Parameters | UR_Account | UR_Template | UR_InitFailed | UR_Close

  function UninitReasonCode(r: UninitializeReason): (c: int)
    ensures 0 <= c <= 9
  {
    match r
    case UR_Undefined => 0
    case UR_Remove => 1
    case UR_Recompile => 2
    case UR_ChartChange => 3
    case UR_ChartClose => 4
    case UR_Parameters => 5
    case UR_Account => 6
    case UR_Template => 7
    case UR_InitFailed => 8
    case UR_Close => 9
  }

  function UninitReasonOf(c: int): (r: Option<UninitializeReason>)
    ensures r.Some? ==> UninitReasonCode(r.value) == c
    ensures forall x: UninitializeReason :: UninitReasonCode(x) == c ==> r == Some(x)
  {
    match c
    case 0 => Some(UR_Undefined)
    case 1 => Some(UR_Remove)
    case 2 => Some(UR_Recompile)
    case 3 => Some(UR_ChartChange)
    case 4 => Some(UR_ChartClose)
    case 5 => Some(UR_Parameters)
    case 6 => Some(UR_Account)
    case 7 => Some(UR_Template)
    case 8 => Some(UR_InitFailed)
    case 9 => Some(UR_Close)
    case _ => None
  }

  /** Exactly ten uninitialize reasons: the codes 0..9 are each taken by one reason. */
  lemma {:induction false} UninitializeReasonCount()
    ensures forall c :: UninitReasonOf(c).Some? <==> 0 <= c <= 9
    ensures forall r: UninitializeReason :: UninitReasonOf(UninitReasonCode(r)) == Some(r)
  {
    forall c ensures UninitReasonOf(c).Some? <==> 0 <= c <= 9 {
      if 0 <= c <= 9 {
        assert c in {0, 1, 2, 3, 4, 5, 6, 7, 8, 9};
      }
    }
  }

  // ---------------------------------------------------------------------------------------------
  // Helpers returning constant values (all arguments ignored) and helpers returning their first
  // argument (the others ignored). C's variadic tail is one argument of any type here.

  function ClrNoneOf<T>(ignored: T): (c: uint32)
    ensures c == CLR_NONE
  {
    CLR_NONE
  }

  function EmptyOf<T>(ignored: T): (r: int)
    ensures r == EMPTY
  {
    EMPTY
  }

  function NullOf<T>(ignored: T): (r: int)
    ensures r == 0
  {
    0
  }

  function IntOf<T>(value: int, ignored: T): (r: int)
    ensures r == value
  {
    value
  }

  function BoolOf<T>(value: bool, ignored: T): (r: bool)
    ensures r == value
  {
    value
  }

  function CharOf<T>(value: char, ignored: T): (r: char)
    ensures r == value
  {
    value
  }

  /** The helpers' results do not depend on the ignored arguments. */
  lemma HelpersIgnoreTrailingArguments<T, U>(v: int, b: bool, ch: char, x: T, y: U)
    ensures IntOf(v, x) == IntOf(v, y) == v
    ensures BoolOf(b, x) == BoolOf(b, y) == b
    ensures CharOf(ch, x) == CharOf(ch, y) == ch
    ensures ClrNoneOf(x) == ClrNoneOf(y) == 0xFFFF_FFFF
    ensures EmptyOf(x) == EmptyOf(y) && NullOf(x) == NullOf(y) == NO_ERROR
  {
  }
}
