/**
 * The EXECUTION_CONTEXT record: one per loaded MQL module, shared between the MQL program's modules and
 * the DLL. This module holds the record as a value, its packed binary layout, and the ec_Set* setter
 * surface with the split between fields the header annotates as constant and as variable.
 */
module ExecutionContext {
  import opened Expander

  /** MAX_PATH and MAX_SYMBOL_LENGTH of the Win32/MetaTrader headers. */
  const MAX_PATH := 260
  const MAX_SYMBOL_LENGTH := 11

  /**
   * A weak, non-owning reference to another module's context: the program it belongs to, its slot in
   * that program's chain and the generation of the record it was taken from. It is re-resolved on
   * every use and never keeps the referenced record alive.
   */
  datatype ContextRef = ContextRef(programIndex: nat, slot: nat, generation: nat)

  /** The fields the header annotates as constant: fixed once the record has been set up. */
  datatype ConstantFields = ConstantFields(
    programIndex: nat,
    programType: ProgramType,
    programName: string,
    moduleType: ModuleType,
    moduleName: string,
    launchType: LaunchType,
    testing: bool,
    visualMode: bool,
    optimization: bool,
    test: nat,
    initFlags: uint32,
    deinitFlags: uint32,
    logging: bool,
    customLogFile: string,
    hChart: nat,
    hChartWindow: nat,
    superContext: Option<ContextRef>)

  /** The fields the header annotates as variable, plus the unannotated initCycle flag. */
  datatype VariableFields = VariableFields(
    rootFunction: RootFunction,
    initCycle: bool,
    initReason: InitializeReason,
    uninitReason: UninitializeReason,
    symbol: string,
    timeframe: nat,
    threadId: nat,
    ticks: nat,
    currentTickTime: int,
    previousTickTime: int,
    mqlError: int,
    dllError: int,
    dllErrorMsg: Option<string>,
    dllWarning: int,
    dllWarningMsg: Option<string>)

  /**
   * One EXECUTION_CONTEXT. The two groups are kept apart here; their interleaving in memory is
   * described by the layout table below.
   */
  datatype Context = Context(fixed: ConstantFields, live: VariableFields)

  // ---------------------------------------------------------------------------------------------
  // The declared setters ec_Set*: one variant per setter, carrying the value it writes.

  /** Setters of constant fields, used while a record is being set up. */
  datatype ConstantSetter =
    | SetProgramIndex(index: nat)
    | SetProgramType(programType: ProgramType)
    | SetProgramName(name: string)
    | SetModuleType(moduleType: ModuleType)
    | SetModuleName(name: string)
    | SetLaunchType(launchType: LaunchType)
    | SetTesting(status: bool)
    | SetVisualMode(status: bool)
    | SetOptimization(status: bool)
    | SetInitFlags(flags: uint32)
    | SetDeinitFlags(flags: uint32)
    | SetLogging(status: bool)
    | SetCustomLogFile(fileName: string)
    | SetHChart(hWnd: nat)
    | SetHChartWindow(hWnd: nat)
    | SetSuperContext(sec: Option<ContextRef>)

  /** Setters of variable fields, used throughout a module's run. */
  datatype VariableSetter =
    | SetRootFunction(rootFunction: RootFunction)
    | SetInitCycle(status: bool)
    | SetInitReason(initReason: InitializeReason)
    | SetUninitReason(uninitReason: UninitializeReason)
    | SetSymbol(symbol: string)
    | SetTimeframe(timeframe: nat)
    | SetThreadId(threadId: nat)
    | SetTicks(count: nat)
    | SetCurrentTickTime(time: int)
    | SetPreviousTickTime(time: int)
    | SetMqlError(error: int)
    | SetDllError(error: int)
    | SetDllWarning(error: int)

  datatype Setter = OfConstant(c: ConstantSetter) | OfVariable(v: VariableSetter)
  {
    /** Whether the setter writes a field the header annotates as variable. */
    predicate IsVariable() {
      OfVariable?
    }

    /** Whether two setters write the same field. */
    predicate SameField(other: Setter) {
      match (this, other)
      case (OfConstant(a), OfConstant(b)) => SameConstantField(a, b)
      case (OfVariable(a), OfVariable(b)) => SameVariableField(a, b)
      case _ => false
    }
  }

  predicate SameConstantField(a: ConstantSetter, b: ConstantSetter) {
    match (a, b)
    case (SetProgramIndex(_), SetProgramIndex(_)) => true
    case (SetProgramType(_), SetProgramType(_)) => true
    case (SetProgramName(_), SetProgramName(_)) => true
    case (SetModuleType(_), SetModuleType(_)) => true
    case (SetModuleName(_), SetModuleName(_)) => true
    case (SetLaunchType(_), SetLaunchType(_)) => true
    case (SetTesting(_), SetTesting(_)) => true
    case (SetVisualMode(_), SetVisualMode(_)) => true
    case (SetOptimization(_), SetOptimization(_)) => true
    case (SetInitFlags(_), SetInitFlags(_)) => true
    case (SetDeinitFlags(_), SetDeinitFlags(_)) => true
    case (SetLogging(_), SetLogging(_)) => true
    case (SetCustomLogFile(_), SetCustomLogFile(_)) => true
    case (SetHChart(_), SetHChart(_)) => true
    case (SetHChartWindow(_), SetHChartWindow(_)) => true
    case (SetSuperContext(_), SetSuperContext(_)) => true
    case _ => false
  }

  predicate SameVariableField(a: VariableSetter, b: VariableSetter) {
    match (a, b)
    case (SetRootFunction(_), SetRootFunction(_)) => true
    case (SetInitCycle(_), SetInitCycle(_)) => true
    case (SetInitReason(_), SetInitReason(_)) => true
    case (SetUninitReason(_), SetUninitReason(_)) => true
    case (SetSymbol(_), SetSymbol(_)) => true
    case (SetTimeframe(_), SetTimeframe(_)) => true
    case (SetThreadId(_), SetThreadId(_)) => true
    case (SetTicks(_), SetTicks(_)) => true
    case (SetCurrentTickTime(_), SetCurrentTickTime(_)) => true
    case (SetPreviousTickTime(_), SetPreviousTickTime(_)) => true
    case (SetMqlError(_), SetMqlError(_)) => true
    case (SetDllError(_), SetDllError(_)) => true
    case (SetDllWarning(_), SetDllWarning(_)) => true
    case _ => false
  }

  /** The field of the record that a setter writes. */
  function FieldOf(s: Setter): Field {
    match s
    case OfConstant(c) => ConstantFieldOf(c)
    case OfVariable(v) => VariableFieldOf(v)
  }

  function ConstantFieldOf(c: ConstantSetter): Field {
    match c
    case SetProgramIndex(_) => F_ProgramIndex      case SetProgramType(_) => F_ProgramType
    case SetProgramName(_) => F_ProgramName        case SetModuleType(_) => F_ModuleType
    case SetModuleName(_) => F_ModuleName          case SetLaunchType(_) => F_LaunchType
    case SetTesting(_) => F_Testing                case SetVisualMode(_) => F_VisualMode
    case SetOptimization(_) => F_Optimization      case SetInitFlags(_) => F_InitFlags
    case SetDeinitFlags(_) => F_DeinitFlags        case SetLogging(_) => F_Logging
    case SetCustomLogFile(_) => F_CustomLogFile    case SetHChart(_) => F_HChart
    case SetHChartWindow(_) => F_HChartWindow      case SetSuperContext(_) => F_SuperContext
  }

  function VariableFieldOf(v: VariableSetter): Field {
    match v
    case SetRootFunction(_) => F_RootFunction      case SetInitCycle(_) => F_InitCycle
    case SetInitReason(_) => F_InitReason          case SetUninitReason(_) => F_UninitReason
    case SetSymbol(_) => F_Symbol                  case SetTimeframe(_) => F_Timeframe
    case SetThreadId(_) => F_ThreadId              case SetTicks(_) => F_Ticks
    case SetCurrentTickTime(_) => F_CurrentTickTime
    case SetPreviousTickTime(_) => F_PreviousTickTime
    case SetMqlError(_) => F_MqlError              case SetDllError(_) => F_DllError
    case SetDllWarning(_) => F_DllWarning
  }

  /** Whether the record holds the value the setter writes, in the field it writes. */
  predicate Holds(ec: Context, s: Setter) {
    match s
    case OfConstant(c) => ConstantHolds(ec.fixed, c)
    case OfVariable(v) => VariableHolds(ec.live, v)
  }

  predicate ConstantHolds(f: ConstantFields, c: ConstantSetter) {
    match c
    case SetProgramIndex(v) => f.programIndex == v
    case SetProgramType(v) => f.programType == v
    case SetProgramName(v) => f.programName == v
    case SetModuleType(v) => f.moduleType == v
    case SetModuleName(v) => f.moduleName == v
    case SetLaunchType(v) => f.launchType == v
    case SetTesting(v) => f.testing == v
    case SetVisualMode(v) => f.visualMode == v
    case SetOptimization(v) => f.optimization == v
    case SetInitFlags(v) => f.initFlags == v
    case SetDeinitFlags(v) => f.deinitFlags == v
    case SetLogging(v) => f.logging == v
    case SetCustomLogFile(v) => f.customLogFile == v
    case SetHChart(v) => f.hChart == v
    case SetHChartWindow(v) => f.hChartWindow == v
    case SetSuperContext(v) => f.superContext == v
  }

  predicate VariableHolds(f: VariableFields, x: VariableSetter) {
    match x
    case SetRootFunction(v) => f.rootFunction == v
    case SetInitCycle(v) => f.initCycle == v
    case SetInitReason(v) => f.initReason == v
    case SetUninitReason(v) => f.uninitReason == v
    case SetSymbol(v) => f.symbol == v
    case SetTimeframe(v) => f.timeframe == v
    case SetThreadId(v) => f.threadId == v
    case SetTicks(v) => f.ticks == v
    case SetCurrentTickTime(v) => f.currentTickTime == v
    case SetPreviousTickTime(v) => f.previousTickTime == v
    case SetMqlError(v) => f.mqlError == v
    case SetDllError(v) => f.dllError == v
    case SetDllWarning(v) => f.dllWarning == v
  }

  /** Whether two records agree on every field except `skip`. */
  predicate AgreeExcept(a: Context, b: Context, skip: Field) {
    ConstantsAgreeExcept(a.fixed, b.fixed, skip) && VariablesAgreeExcept(a.live, b.live, skip)
  }

  predicate ConstantsAgreeExcept(a: ConstantFields, b: ConstantFields, skip: Field) {
    && (skip != F_ProgramIndex ==> a.programIndex == b.programIndex)
    && (skip != F_ProgramType ==> a.programType == b.programType)
    && (skip != F_ProgramName ==> a.programName == b.programName)
    && (skip != F_ModuleType ==> a.moduleType == b.moduleType)
    && (skip != F_ModuleName ==> a.moduleName == b.moduleName)
    && (skip != F_LaunchType ==> a.launchType == b.launchType)
    && (skip != F_Testing ==> a.testing == b.testing)
    && (skip != F_VisualMode ==> a.visualMode == b.visualMode)
    && (skip != F_Optimization ==> a.optimization == b.optimization)
    && (skip != F_Test ==> a.test == b.test)
    && (skip != F_InitFlags ==> a.initFlags == b.initFlags)
    && (skip != F_DeinitFlags ==> a.deinitFlags == b.deinitFlags)
    && (skip != F_Logging ==> a.logging == b.logging)
    && (skip != F_CustomLogFile ==> a.customLogFile == b.customLogFile)
    && (skip != F_HChart ==> a.hChart == b.hChart)
    && (skip != F_HChartWindow ==> a.hChartWindow == b.hChartWindow)
    && (skip != F_SuperContext ==> a.superContext == b.superContext)
  }

  predicate VariablesAgreeExcept(a: VariableFields, b: VariableFields, skip: Field) {
    && (skip != F_RootFunction ==> a.rootFunction == b.rootFunction)
    && (skip != F_InitCycle ==> a.initCycle == b.initCycle)
    && (skip != F_InitReason ==> a.initReason == b.initReason)
    && (skip != F_UninitReason ==> a.uninitReason == b.uninitReason)
    && (skip != F_Symbol ==> a.symbol == b.symbol)
    && (skip != F_Timeframe ==> a.timeframe == b.timeframe)
    && (skip != F_ThreadId ==> a.threadId == b.threadId)
    && (skip != F_Ticks ==> a.ticks == b.ticks)
    && (skip != F_CurrentTickTime ==> a.currentTickTime == b.currentTickTime)
    && (skip != F_PreviousTickTime ==> a.previousTickTime == b.previousTickTime)
    && (skip != F_MqlError ==> a.mqlError == b.mqlError)
    && (skip != F_DllError ==> a.dllError == b.dllError)
    && (skip != F_DllErrorMsg ==> a.dllErrorMsg == b.dllErrorMsg)
    && (skip != F_DllWarning ==> a.dllWarning == b.dllWarning)
    && (skip != F_DllWarningMsg ==> a.dllWarningMsg == b.dllWarningMsg)
  }

  /** Two setters write the same field exactly when they name the same field of the layout. */
  lemma SameFieldIsSameLayoutField(s1: Setter, s2: Setter)
    ensures s1.SameField(s2) <==> FieldOf(s1) == FieldOf(s2)
  {
  }

  function ApplyConstant(f: ConstantFields, s: ConstantSetter): (r: ConstantFields)
    ensures ConstantHolds(r, s) && ConstantsAgreeExcept(f, r, ConstantFieldOf(s))
  {
    match s
    case SetProgramIndex(v) => f.(programIndex := v)
    case SetProgramType(v) => f.(programType := v)
    case SetProgramName(v) => f.(programName := v)
    case SetModuleType(v) => f.(moduleType := v)
    case SetModuleName(v) => f.(moduleName := v)
    case SetLaunchType(v) => f.(launchType := v)
    case SetTesting(v) => f.(testing := v)
    case SetVisualMode(v) => f.(visualMode := v)
    case SetOptimization(v) => f.(optimization := v)
    case SetInitFlags(v) => f.(initFlags := v)
    case SetDeinitFlags(v) => f.(deinitFlags := v)
    case SetLogging(v) => f.(logging := v)
    case SetCustomLogFile(v) => f.(customLogFile := v)
    case SetHChart(v) => f.(hChart := v)
    case SetHChartWindow(v) => f.(hChartWindow := v)
    case SetSuperContext(v) => f.(superContext := v)
  }

  function ApplyVariable(f: VariableFields, s: VariableSetter): (r: VariableFields)
    ensures VariableHolds(r, s) && VariablesAgreeExcept(f, r, VariableFieldOf(s))
  {
    match s
    case SetRootFunction(v) => f.(rootFunction := v)
    case SetInitCycle(v) => f.(initCycle := v)
    case SetInitReason(v) => f.(initReason := v)
    case SetUninitReason(v) => f.(uninitReason := v)
    case SetSymbol(v) => f.(symbol := v)
    case SetTimeframe(v) => f.(timeframe := v)
    case SetThreadId(v) => f.(threadId := v)
    case SetTicks(v) => f.(ticks := v)
    case SetCurrentTickTime(v) => f.(currentTickTime := v)
    case SetPreviousTickTime(v) => f.(previousTickTime := v)
    case SetMqlError(v) => f.(mqlError := v)
    case SetDllError(v) => f.(dllError := v)
    case SetDllWarning(v) => f.(dllWarning := v)
  }

  /**
   * The record after one ec_Set* call: the setter's own field holds the value written and every other
   * field reads as before. In particular a setter of a variable field leaves every constant field as
   * it was, and a setter of a constant field leaves every variable field as it was.
   */
  function Apply(ec: Context, s: Setter): (r: Context)
    ensures Holds(r, s)
    ensures AgreeExcept(ec, r, FieldOf(s))
    ensures s.IsVariable() ==> r.fixed == ec.fixed
    ensures !s.IsVariable() ==> r.live == ec.live
  {
    match s
    case OfConstant(c) => ec.(fixed := ApplyConstant(ec.fixed, c))
    case OfVariable(v) => ec.(live := ApplyVariable(ec.live, v))
  }

  /** Setting a field twice is the same as setting it once to the second value: the last write wins. */
  lemma LastWriteWins(ec: Context, s1: Setter, s2: Setter)
    requires s1.SameField(s2)
    ensures Apply(Apply(ec, s1), s2) == Apply(ec, s2)
  {
    match s1
    case OfConstant(a) => ConstantLastWriteWins(ec.fixed, a, s2.c);
    case OfVariable(a) => VariableLastWriteWins(ec.live, a, s2.v);
  }

  lemma ConstantLastWriteWins(f: ConstantFields, a: ConstantSetter, b: ConstantSetter)
    requires SameConstantField(a, b)
    ensures ApplyConstant(ApplyConstant(f, a), b) == ApplyConstant(f, b)
  {
    match a
    case SetProgramIndex(_) => assert b.SetProgramIndex?;
    case SetProgramType(_) => assert b.SetProgramType?;
    case SetProgramName(_) => assert b.SetProgramName?;
    case SetModuleType(_) => assert b.SetModuleType?;
    case SetModuleName(_) => assert b.SetModuleName?;
    case SetLaunchType(_) => assert b.SetLaunchType?;
    case SetTesting(_) => assert b.SetTesting?;
    case SetVisualMode(_) => assert b.SetVisualMode?;
    case SetOptimization(_) => assert b.SetOptimization?;
    case SetInitFlags(_) => assert b.SetInitFlags?;
    case SetDeinitFlags(_) => assert b.SetDeinitFlags?;
    case SetLogging(_) => assert b.SetLogging?;
    case SetCustomLogFile(_) => assert b.SetCustomLogFile?;
    case SetHChart(_) => assert b.SetHChart?;
    case SetHChartWindow(_) => assert b.SetHChartWindow?;
    case SetSuperContext(_) => assert b.SetSuperContext?;
  }

  lemma VariableLastWriteWins(f: VariableFields, a: VariableSetter, b: VariableSetter)
    requires SameVariableField(a, b)
    ensures ApplyVariable(ApplyVariable(f, a), b) == ApplyVariable(f, b)
  {
    match a
    case SetRootFunction(_) => assert b.SetRootFunction?;
    case SetInitCycle(_) => assert b.SetInitCycle?;
    case SetInitReason(_) => assert b.SetInitReason?;
    case SetUninitReason(_) => assert b.SetUninitReason?;
    case SetSymbol(_) => assert b.SetSymbol?;
    case SetTimeframe(_) => assert b.SetTimeframe?;
    case SetThreadId(_) => assert b.SetThreadId?;
    case SetTicks(_) => assert b.SetTicks?;
    case SetCurrentTickTime(_) => assert b.SetCurrentTickTime?;
    case SetPreviousTickTime(_) => assert b.SetPreviousTickTime?;
    case SetMqlError(_) => assert b.SetMqlError?;
    case SetDllError(_) => assert b.SetDllError?;
    case SetDllWarning(_) => assert b.SetDllWarning?;
  }

  /** The record after a sequence of ec_Set* calls, applied in order. */
  function ApplyAll(ec: Context, ss: seq<Setter>): Context
    decreases |ss|
  {
    if ss == [] then ec else ApplyAll(Apply(ec, ss[0]), ss[1..])
  }

  /** Any sequence of variable-field updates leaves the constant fields of the record unchanged. */
  lemma {:induction false} VariableUpdatesKeepConstants(ec: Context, ss: seq<Setter>)
    requires forall i :: 0 <= i < |ss| ==> ss[i].IsVariable()
    ensures ApplyAll(ec, ss).fixed == ec.fixed
    decreases |ss|
  {
    if ss != [] {
      VariableUpdatesKeepConstants(Apply(ec, ss[0]), ss[1..]);
    }
  }

  // ---------------------------------------------------------------------------------------------
  // The packed (1-byte aligned) binary layout shared with MQL, for a 32-bit process: every handle,
  // pointer, enum, BOOL, uint and datetime takes 4 bytes.

  datatype Field =
    | F_ProgramIndex | F_ProgramType | F_ProgramName | F_ModuleType | F_ModuleName
    | F_LaunchType | F_RootFunction | F_InitCycle | F_InitReason | F_UninitReason
    | F_Testing | F_VisualMode | F_Optimization | F_Test
    | F_InitFlags | F_DeinitFlags | F_Logging | F_CustomLogFile
    | F_Symbol | F_Timeframe | F_HChart | F_HChartWindow
    | F_SuperContext | F_ThreadId | F_Ticks | F_CurrentTickTime | F_PreviousTickTime
    | F_MqlError | F_DllError | F_DllErrorMsg | F_DllWarning | F_DllWarningMsg

  const FIELD_COUNT := 32
  const RECORD_SIZE := 904

  /** Declaration order of the fields. */
  function Position(f: Field): nat {
    match f
    case F_ProgramIndex => 0      case F_ProgramType => 1       case F_ProgramName => 2
    case F_ModuleType => 3        case F_ModuleName => 4        case F_LaunchType => 5
    case F_RootFunction => 6      case F_InitCycle => 7         case F_InitReason => 8
    case F_UninitReason => 9      case F_Testing => 10          case F_VisualMode => 11
    case F_Optimization => 12     case F_Test => 13             case F_InitFlags => 14
    case F_DeinitFlags => 15      case F_Logging => 16          case F_CustomLogFile => 17
    case F_Symbol => 18           case F_Timeframe => 19        case F_HChart => 20
    case F_HChartWindow => 21     case F_SuperContext => 22     case F_ThreadId => 23
    case F_Ticks => 24            case F_CurrentTickTime => 25  case F_PreviousTickTime => 26
    case F_MqlError => 27         case F_DllError => 28         case F_DllErrorMsg => 29
    case F_DllWarning => 30       case F_DllWarningMsg => 31
  }

  /** The field declared right before f, if any. */
  function Previous(f: Field): Option<Field> {
    match f
    case F_ProgramIndex => None                  case F_ProgramType => Some(F_ProgramIndex)
    case F_ProgramName => Some(F_ProgramType)    case F_ModuleType => Some(F_ProgramName)
    case F_ModuleName => Some(F_ModuleType)      case F_LaunchType => Some(F_ModuleName)
    case F_RootFunction => Some(F_LaunchType)    case F_InitCycle => Some(F_RootFunction)
    case F_InitReason => Some(F_InitCycle)       case F_UninitReason => Some(F_InitReason)
    case F_Testing => Some(F_UninitReason)       case F_VisualMode => Some(F_Testing)
    case F_Optimization => Some(F_VisualMode)    case F_Test => Some(F_Optimization)
    case F_InitFlags => Some(F_Test)             case F_DeinitFlags => Some(F_InitFlags)
    case F_Logging => Some(F_DeinitFlags)        case F_CustomLogFile => Some(F_Logging)
    case F_Symbol => Some(F_CustomLogFile)       case F_Timeframe => Some(F_Symbol)
    case F_HChart => Some(F_Timeframe)           case F_HChartWindow => Some(F_HChart)
    case F_SuperContext => Some(F_HChartWindow)  case F_ThreadId => Some(F_SuperContext)
    case F_Ticks => Some(F_ThreadId)             case F_CurrentTickTime => Some(F_Ticks)
    case F_PreviousTickTime => Some(F_CurrentTickTime)
    case F_MqlError => Some(F_PreviousTickTime)  case F_DllError => Some(F_MqlError)
    case F_DllErrorMsg => Some(F_DllError)       case F_DllWarning => Some(F_DllErrorMsg)
    case F_DllWarningMsg => Some(F_DllWarning)
  }

  /** Previous follows the declaration order: only the first field has no predecessor ... */
  lemma OnlyFirstFieldHasNoPrevious(f: Field)
    ensures Previous(f).None? <==> Position(f) == 0
  {
  }

  /** ... and every other field follows the field declared just before it. */
  lemma PreviousFollowsDeclarationOrder(f: Field)
    ensures Previous(f).Some? ==> Position(Previous(f).value) + 1 == Position(f)
  {
    var p := Position(f);
    if p < 8 { PreviousInFirstQuarter(f); }
    else if p < 16 { PreviousInSecondQuarter(f); }
    else if p < 24 { PreviousInThirdQuarter(f); }
    else { PreviousInLastQuarter(f); }
  }

  // The same fact, eight fields at a time.

  lemma PreviousInFirstQuarter(f: Field)
    requires Position(f) < 8
    ensures Previous(f).Some? ==> Position(Previous(f).value) + 1 == Position(f)
  {
  }

  lemma PreviousInSecondQuarter(f: Field)
    requires 8 <= Position(f) < 16
    ensures Previous(f).Some? ==> Position(Previous(f).value) + 1 == Position(f)
  {
  }

  lemma PreviousInThirdQuarter(f: Field)
    requires 16 <= Position(f) < 24
    ensures Previous(f).Some? ==> Position(Previous(f).value) + 1 == Position(f)
  {
  }

  lemma PreviousInLastQuarter(f: Field)
    requires 24 <= Position(f)
    ensures Previous(f).Some? ==> Position(Previous(f).value) + 1 == Position(f)
  {
  }



  /** Field sizes in bytes. */
  function Size(f: Field): nat {
    match f
    case F_ProgramName => MAX_PATH
    case F_ModuleName => MAX_PATH
    case F_CustomLogFile => MAX_PATH
    case F_Symbol => MAX_SYMBOL_LENGTH + 1
    case _ => 4
  }

  /** The documented field offsets: every field lies inside the 904-byte record. */
  function Offset(f: Field): (o: nat)
    ensures o + Size(f) <= RECORD_SIZE
  {
    match f
    case F_ProgramIndex => 0      case F_ProgramType => 4       case F_ProgramName => 8
    case F_ModuleType => 268      case F_ModuleName => 272      case F_LaunchType => 532
    case F_RootFunction => 536    case F_InitCycle => 540       case F_InitReason => 544
    case F_UninitReason => 548    case F_Testing => 552         case F_VisualMode => 556
    case F_Optimization => 560    case F_Test => 564            case F_InitFlags => 568
    case F_DeinitFlags => 572     case F_Logging => 576         case F_CustomLogFile => 580
    case F_Symbol => 840          case F_Timeframe => 852       case F_HChart => 856
    case F_HChartWindow => 860    case F_SuperContext => 864    case F_ThreadId => 868
    case F_Ticks => 872           case F_CurrentTickTime => 876 case F_PreviousTickTime => 880
    case F_MqlError => 884        case F_DllError => 888        case F_DllErrorMsg => 892
    case F_DllWarning => 896      case F_DllWarningMsg => 900
  }

  /**
   * The layout is packed: the first field starts at 0, every other field starts where the field
   * before it ends, and the last field ends at the record size 904.
   */
  lemma LayoutIsPacked(f: Field)
    ensures Previous(f).None? ==> Offset(f) == 0
    ensures Previous(f).Some? ==> Offset(f) == Offset(Previous(f).value) + Size(Previous(f).value)
    ensures Offset(f) + Size(f) <= RECORD_SIZE
    ensures Position(f) == FIELD_COUNT - 1 ==> Offset(f) + Size(f) == RECORD_SIZE
  {
  }

  /** Consequently fields never overlap, and later fields lie at higher offsets. */
  lemma FieldsDoNotOverlap(f: Field, g: Field)
    requires Position(f) < Position(g)
    ensures Offset(f) + Size(f) <= Offset(g)
  {
  }
}
