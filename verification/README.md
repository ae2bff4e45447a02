# MetaTrader expander core — a Dafny model

This project models the core of the MetaTrader 4 "expander" DLL, which MQL programs (experts,
scripts, indicators and their libraries) call into. The model covers five parts.

- **Shared vocabulary** (`expander.dfy`, module `Expander`): the closed enums that describe a
  program, its modules and its lifecycle. Each enum has its numeric code and a decoder for raw C
  enum values. The file also holds the 32-bit constants and the variadic helpers that return a
  constant or their first argument.
- **Execution contexts** (`execution_context.dfy`, `context_chain.dfy`):
  - the `EXECUTION_CONTEXT` record, split into its constant and variable fields;
  - the `ec_Set*` updates;
  - the packed 904-byte binary layout;
  - the `ContextChain` class: slot 0 is the master, slot 1 the main module, later slots libraries.
    It carries the header's validity rules: the master is always valid; an indicator's main record
    is released after `deinit()` and replaced in `init()`; a recompiled or crashed library's record
    is dead.
  - the program table, in which a program index is 1-based.
- **MQL utilities** (`mql_utils.dfy`, `indicator_buffer.dfy`, `tick_timers.dfy`):
  - timeframe classification;
  - the enum-to-text tables, including the decimal fallback of `PeriodDescription`;
  - the older char-by-char `StringCompare`;
  - slicing of the file-version words, including the aliased out-parameters of `GetTerminalBuild`;
  - the in-place `ShiftIndicatorBuffer`;
  - the tick-timer table: set up, remove, remove all, and the callback's flag dispatch.
- **Symbol groups** (`symbol_groups.dfy`): the `sg_*`/`sgs_*` getters and validating setters over
  the array of `SYMBOL_GROUP` records.
- **String helpers** (`string_util.dfy`):
  - NULL-aware `StringIsNull`, `StringCompare` and `StringEndsWith`;
  - the pointer checks of `GetString`/`GetStringAddress`;
  - in-place `StrToLower`/`StrToUpper`, in the `char*` and `std::string` forms.

How the C source is represented:

- **C strings** are `Option<string>`, where `None` is a NULL pointer (or, where the source tests
  for it, a pointer below `MIN_VALID_POINTER`).
- **A pointer to a symbol group** is the pair (array, index) of the array holding it; a NULL array
  stands for an invalid pointer.
- **Window-system results** are parameters of the operations that use them: `SetTimer`,
  `KillTimer`, `GetClipBox`, `GetWindowThreadProcessId` and the version resource.
- **Constants from missing headers.** `shared/defines.h` and `struct/mt4/SymbolGroup.h` are not
  part of this model, so the following values are assumed:
  - the DLL's own enum codes (`PROGRAMTYPE_*`, `MODULETYPE_*`, `LAUNCHTYPE_*`, `ROOTFUNCTION_*`,
    `INITREASON_*`, `UNINITREASON_*`): flag bits 1, 2, 4 (and 8 for libraries) for program and
    module types, program and module type of the same kind sharing a code; 1..3 for launch types and
    root functions; 1..8 for initialize reasons; 0..9 for uninitialize reasons;
  - the `PERIOD_*` ids, in minutes per bar as in MQL4 (M1 = 1 … MN1 = 43200, Q1 = 129600);
  - `MIN_VALID_POINTER` (0x10000), `White` (0xFFFFFF), and the `SYMBOL_GROUP` buffers: a 16-byte
    name, a 60-byte description, 32 groups.

  Statements that rest on these concrete values: `LaunchTypeAndRootFunctionAreClosed`,
  `InitializeReasonCount`, `UninitializeReasonCount` and the `*Code` ranges (the code ranges);
  `MainModuleType` and `ProgramAndMainModuleShareDescription` (equal program and module codes);
  `IsStdTimeframe`, `IsCustomTimeframe` and `QuarterIsCustomButNamed` (the period ids); `SetName`,
  `SetDescription` and their indexed forms (the limits 15 and 59); the White fallback of the colour
  functions. Everything else only needs the codes to be pairwise distinct.

The registry that hands out chains has no bodies in the source; only the header's comments
describe it. The chain and the program table follow those comments. The model adds one device of
its own: a reference to a record is a handle (slot, generation). Any access through a handle to
an invalidated or replaced record fails with `StaleContext`, instead of reading released memory.

Access rule: a module may read and write its own record and the program's master record; the main
module and its libraries may also reach each other's records; one library never reaches another
library's record. The model applies this rule to writes as well as reads, as the header does.

## Model

| member | source | states |
|---|---|---|
| Expander.ProgramTypeOf | header/expander.h:45-49 | a raw value decodes to the program type with that code, and to None exactly when no type has it |
| Expander.ProgramTypeCode | header/expander.h:45-49 | every program type code is non-zero, so it never reads as the tables' NULL entry |
| Expander.ProgramTypeIsClosed | header/expander.h:45-49 | ProgramType has exactly the three distinct variants Indicator, Expert, Script |
| Expander.ModuleTypeOf | header/expander.h:53-58 | a raw value decodes to the module type with that code, None when no type has it |
| Expander.ModuleTypeCode | header/expander.h:53-58 | every module type code is non-zero |
| Expander.MainModuleType | header/expander.h:45-58 | a program's main module type is never Library and carries the program type's code |
| Expander.ModuleTypeIsClosed | header/expander.h:53-58 | ModuleType has exactly four variants: the three main-module types plus Library |
| Expander.LaunchTypeOf | header/expander.h:62-66 | decoding of launch types: Some exactly for the code of a variant |
| Expander.LaunchTypeCode | header/expander.h:62-66 | every launch type code is non-zero |
| Expander.RootFunctionOf | header/expander.h:70-74 | decoding of root functions: Some exactly for the code of a variant |
| Expander.RootFunctionCode | header/expander.h:70-74 | every root function code is non-zero |
| Expander.LaunchTypeAndRootFunctionAreClosed | header/expander.h:62-74 | exactly three launch types and three root functions; decoding inverts encoding |
| Expander.InitReasonOf | header/expander.h:78-87 | decoding of initialize reasons: Some exactly for the code of a variant |
| Expander.InitReasonCode | header/expander.h:78-87 | every initialize reason code lies in 1..8 |
| Expander.InitializeReasonCount | header/expander.h:78-87 | exactly eight initialize reasons, one per code 1..8; decoding inverts encoding |
| Expander.UninitReasonOf | header/expander.h:91-103 | decoding of uninitialize reasons: Some exactly for the code of a variant |
| Expander.UninitReasonCode | header/expander.h:91-103 | every uninitialize reason code lies in 0..9 |
| Expander.UninitializeReasonCount | header/expander.h:91-103 | exactly ten uninitialize reasons, one per code 0..9; decoding inverts encoding |
| Expander.ClrNoneOf | header/expander.h:136 | `_CLR_NONE` returns 0xFFFFFFFF whatever its argument |
| Expander.EmptyOf | header/expander.h:128 | `_EMPTY` returns EMPTY (-1) whatever its argument |
| Expander.NullOf | header/expander.h:131 | `_NULL` returns 0 whatever its argument |
| Expander.IntOf | header/expander.h:143-145 | `_int`, and `_BOOL` (a BOOL is an int), return their first argument |
| Expander.BoolOf | header/expander.h:142 | `_bool` returns its first argument |
| Expander.CharOf | header/expander.h:144 | `_char` returns its first argument |
| Expander.HelpersIgnoreTrailingArguments | header/expander.h:127-145 | the helpers' results do not depend on the trailing arguments at all |
| ExecutionContext.ApplyConstant | header/struct/xtrade/ExecutionContext.h:129-150 | a constant-field setter writes its value into its field and leaves the other constant fields |
| ExecutionContext.ApplyVariable | header/struct/xtrade/ExecutionContext.h:135-158 | a variable-field setter writes its value into its field and leaves the other variable fields |
| ExecutionContext.Apply | header/struct/xtrade/ExecutionContext.h:129-158 | after an ec_Set* call the setter's own field holds the value written and every other field of the record reads as before; so a variable-field setter keeps every constant field and a constant-field setter every variable field |
| ExecutionContext.SameFieldIsSameLayoutField | header/struct/xtrade/ExecutionContext.h:129-158 | two setters write the same field exactly when they map to the same field of the layout |
| ExecutionContext.LastWriteWins | header/struct/xtrade/ExecutionContext.h:129-158 | two writes to the same field equal the second write alone |
| ExecutionContext.ConstantLastWriteWins | header/struct/xtrade/ExecutionContext.h:129-150 | last write wins for each constant-field setter |
| ExecutionContext.VariableLastWriteWins | header/struct/xtrade/ExecutionContext.h:135-158 | last write wins for each variable-field setter |
| ExecutionContext.VariableUpdatesKeepConstants | header/struct/xtrade/ExecutionContext.h:48-84 | any sequence of variable-field updates leaves all constant fields unchanged |
| ExecutionContext.OnlyFirstFieldHasNoPrevious | header/struct/xtrade/ExecutionContext.h:47-85 | only the first declared field has no predecessor |
| ExecutionContext.PreviousFollowsDeclarationOrder | header/struct/xtrade/ExecutionContext.h:47-85 | every other field follows the field declared just before it |
| ExecutionContext.Offset | header/struct/xtrade/ExecutionContext.h:46-86 | every documented offset plus the field's size lies within the 904-byte record |
| ExecutionContext.LayoutIsPacked | header/struct/xtrade/ExecutionContext.h:46-86 | the first offset is 0, each offset is the previous offset plus size, and the last field ends at 904 |
| ExecutionContext.FieldsDoNotOverlap | header/struct/xtrade/ExecutionContext.h:46-86 | a field declared earlier ends at or before the start of any later one |
| ContextChains.Permitted | header/struct/xtrade/ExecutionContext.h:29-32 | a module reaches only the master, its own record, and records across the main↔library line |
| ContextChains.PermittedIsSymmetric | header/struct/xtrade/ExecutionContext.h:29-32 | apart from the master, access between two modules is mutual |
| ContextChains.LibrariesDoNotShareRecords | header/struct/xtrade/ExecutionContext.h:29-32 | a library may access its own record, the master and the main module, but never another library's record |
| ContextChains.ContextChain.constructor | header/struct/xtrade/ExecutionContext.h:13-15 | a new chain holds the valid master in slot 0 and the valid main record in slot 1 |
| ContextChains.ContextChain.MasterAlwaysResolves | header/struct/xtrade/ExecutionContext.h:29-30 | the master record always resolves and every module may access it |
| ContextChains.ContextChain.Read | header/struct/xtrade/ExecutionContext.h:29-44 | for a reader that is a module of the chain, a read succeeds exactly when permitted and the record is live and current; otherwise NotPermitted or StaleContext |
| ContextChains.ContextChain.MasterState | header/struct/xtrade/ExecutionContext.h:163-165 | mec_* read root function, uninit reason and init flags of the master record |
| ContextChains.ContextChain.Update | header/struct/xtrade/ExecutionContext.h:129-158 | for a writer that is a module of the chain, a permitted variable-field write to a live record rewrites just that record; constant fields and every error case leave the chain unchanged |
| ContextChains.ContextChain.AttachLibrary | header/struct/xtrade/ExecutionContext.h:13-15 | a library record is appended as a new library slot and handles that resolved still resolve |
| ContextChains.ContextChain.InvalidateLibrary | header/struct/xtrade/ExecutionContext.h:43-44 | after recompile or crash no handle reaches the library's record; only library slots can be invalidated |
| ContextChains.ContextChain.LeaveDeinit | header/struct/xtrade/ExecutionContext.h:34-41 | leaving deinit() invalidates the main record of an indicator only; experts and scripts keep theirs |
| ContextChains.ContextChain.ReallocateMain | header/struct/xtrade/ExecutionContext.h:34-41 | an indicator's init() installs a fresh main record under a new generation; old handles stay stale |
| ContextChains.IndicatorReinitialisation | header/struct/xtrade/ExecutionContext.h:38-41 | between deinit() and init() a library's reads of the main context fail; afterwards it reads the new record, never through the old handle |
| ContextChains.ProgramTable.constructor | header/struct/xtrade/ExecutionContext.h:48 | the program table starts empty |
| ContextChains.ProgramTable.Admit | header/struct/xtrade/ExecutionContext.h:48 | a new program receives the next 1-based index; its chain is exactly the live master and main records, each with that index written in and otherwise as given, at generation 0 |
| ContextChains.ProgramTable.Lookup | header/struct/xtrade/ExecutionContext.h:48 | index i (1-based) yields the chain whose master carries i; 0 and unassigned indices yield none |
| StringUtil.CheckedPointer | src/util/string.cpp:30-49 | NULL and valid addresses pass unchanged; a non-NULL address below MIN_VALID_POINTER yields NULL |
| StringUtil.CheckedPointerIsIdempotent | src/util/string.cpp:30-49 | checking a checked address changes nothing |
| StringUtil.StringIsNull | src/util/string.cpp:59-62 | true exactly for a NULL pointer |
| StringUtil.Strcmp | src/util/string.cpp:76 | the sign of strcmp as -1, 0 or 1; what it means is stated by the two lemmas below |
| StringUtil.StrcmpZeroIffEqual | src/util/string.cpp:73-77 | strcmp yields 0 exactly for equal strings |
| StringUtil.StrcmpAntisymmetric | src/util/string.cpp:76 | swapping strcmp's arguments flips the sign of its result |
| StringUtil.StringCompare | src/util/string.cpp:73-78 | true for two NULLs, false when exactly one is NULL, otherwise true iff the contents are equal |
| StringUtil.StringEndsWith | src/util/string.cpp:89-101 | FALSE for NULL str; FALSE with a warning for NULL or empty suffix; otherwise true iff str is some prefix followed by suffix |
| StringUtil.ToLower | src/util/string.cpp:109-115 | maps A-Z to a-z and leaves every other character alone |
| StringUtil.ToUpper | src/util/string.cpp:147-153 | maps a-z to A-Z and leaves every other character alone |
| StringUtil.MapCharsAt | src/util/string.cpp:109-177 | case mapping keeps the length and maps each position to its character's image |
| StringUtil.CharCaseMapping | src/util/string.cpp:109-177 | per character, lower/upper mappings are idempotent and lower undoes upper |
| StringUtil.CaseMappingIsIdempotent | src/util/string.cpp:109-177 | lower-casing (upper-casing) twice equals doing it once |
| StringUtil.LowerAfterUpperIsLower | src/util/string.cpp:109-177 | lower-casing an upper-cased string equals lower-casing the original |
| StringUtil.MapInPlace | src/util/string.cpp:123-127 | the loop rewrites every character of the buffer to its image |
| StringUtil.Strlen | src/util/string.cpp:110 | the result is the position of the first NUL |
| StringUtil.MapCString | src/util/string.cpp:109-115 | the text before the terminator is mapped and copied back; terminator and the rest of the buffer are kept |
| StringUtil.StrToLower | src/util/string.cpp:109-115 | char* form: the text up to the terminator is lower-cased in place |
| StringUtil.StrToUpper | src/util/string.cpp:147-153 | char* form: the text up to the terminator is upper-cased in place |
| StringUtil.StdStrToLower | src/util/string.cpp:123-127 | std::string form: every character is lower-cased in place |
| StringUtil.StdStrToUpper | src/util/string.cpp:161-165 | std::string form: every character is upper-cased in place |
| MqlUtils.IsStdTimeframe | src/mql/MQLUtils.cpp:123-136 | true exactly for the nine ids M1, M5, M15, M30, H1, H4, D1, W1, MN1 |
| MqlUtils.IsCustomTimeframe | src/mql/MQLUtils.cpp:147-152 | true exactly for positive ids that are not standard |
| MqlUtils.TimeframeClassesPartitionPositiveIds | src/mql/MQLUtils.cpp:123-152 | every positive id is standard or custom and not both; no id ≤ 0 is either |
| MqlUtils.QuarterIsCustomButNamed | src/mql/MQLUtils.cpp:147-152 | PERIOD_Q1 counts as custom, yet PeriodToStr and PeriodDescription name it |
| MqlUtils.ModuleTypeToStr | src/mql/MQLUtils.cpp:180-192 | non-NULL exactly for 0 and the module type codes; the names carry the prefix "MT_" |
| MqlUtils.ModuleTypeDescription | src/mql/MQLUtils.cpp:201-213 | defined on exactly the domain of ModuleTypeToStr |
| MqlUtils.ProgramTypeToStr | src/mql/MQLUtils.cpp:222-233 | non-NULL exactly for 0 and the program type codes; the names carry the prefix "PT_" |
| MqlUtils.ProgramTypeDescription | src/mql/MQLUtils.cpp:242-253 | defined on exactly the domain of ProgramTypeToStr |
| MqlUtils.ProgramAndMainModuleShareDescription | src/mql/MQLUtils.cpp:201-253 | a program type is described like its main module type |
| MqlUtils.RootFunctionToStr | src/mql/MQLUtils.cpp:262-273 | non-NULL exactly for 0 and the root function codes; the names carry the prefix "RF_" |
| MqlUtils.RootFunctionName | src/mql/MQLUtils.cpp:282-293 | defined on exactly the domain of RootFunctionToStr |
| MqlUtils.UninitializeReasonToStr | src/mql/MQLUtils.cpp:377-393 | non-NULL exactly for the ten reason codes, each name carrying the prefix "REASON_" |
| MqlUtils.TablesAreInjective | src/mql/MQLUtils.cpp:180-393 | in every table, distinct listed codes have distinct texts |
| MqlUtils.PeriodToStr | src/mql/MQLUtils.cpp:302-319 | non-NULL exactly for 0, the nine standard timeframes and PERIOD_Q1 |
| MqlUtils.PeriodName | src/mql/MQLUtils.cpp:329-341 | the short names have the same domain as PeriodToStr and begin with a letter |
| MqlUtils.PeriodDescription | src/mql/MQLUtils.cpp:329-349 | never NULL or empty; an unlisted id is rendered as its decimal |
| MqlUtils.PeriodDescriptionIsInjective | src/mql/MQLUtils.cpp:329-349 | different ids always get different descriptions |
| MqlUtils.NatToDecimal | src/mql/MQLUtils.cpp:343-345 | the rendering of a natural number is non-empty and all digits |
| MqlUtils.IntToDecimal | src/mql/MQLUtils.cpp:343-345 | the "%d" rendering is non-empty, starts with '-' exactly for negative ids, and is otherwise digits |
| MqlUtils.DecimalRoundTrip | src/mql/MQLUtils.cpp:343-345 | reading back the "%d" rendering of any int yields that int |
| MqlUtils.NatDecimalRoundTrip | src/mql/MQLUtils.cpp:343-345 | the digits of a natural number read back as that number |
| MqlUtils.DecimalStartsWithDigitOrSign | src/mql/MQLUtils.cpp:343-345 | a "%d" rendering starts with a digit or a minus sign, never a letter |
| MqlUtils.StringCompareCharwise | src/mql/MQLUtils.cpp:769-787 | the NULL/length/character-loop comparison gives the same answer as StringUtil.StringCompare |
| MqlUtils.VersionNumbers | src/mql/MQLUtils.cpp:888-891 | each number fits 16 bits; major:minor reassemble the MS word and hotfix:build the LS word |
| MqlUtils.VersionNumbersAreInjective | src/mql/MQLUtils.cpp:888-891 | the slicing loses no information |
| MqlUtils.AssignVersion | src/mql/MQLUtils.cpp:895-898 | results are assigned major, minor, hotfix, build; with aliasing the later assignment wins |
| MqlUtils.TerminalBuild | src/mql/MQLUtils.cpp:936-941 | all four out-parameters alias, so the result is the build number (low half of the LS word), or 0 on failure |
| IndicatorBuffers.Shifted | src/mql/MQLUtils.cpp:806-810 | a shift keeps the buffer's length and everything beyond the first size elements |
| IndicatorBuffers.ShiftedAt | src/mql/MQLUtils.cpp:806-810 | after a shift, element i holds old element i+bars, the last bars slots hold emptyValue, the rest is kept |
| IndicatorBuffers.ShiftByZero | src/mql/MQLUtils.cpp:804 | a shift by zero bars changes nothing |
| IndicatorBuffers.ShiftsCompose | src/mql/MQLUtils.cpp:800-813 | two shifts by b1 and b2 bars equal one shift by b1+b2 |
| IndicatorBuffers.ShiftIndicatorBuffer | src/mql/MQLUtils.cpp:800-813 | an invalid buffer pointer, then a negative size or bars, fail; a zero changes nothing; otherwise the buffer is shifted in place |
| TickTimers.IndexOfId | src/mql/MQLUtils.cpp:656-658 | finds the first timer with the id, or reports that none has it |
| TickTimers.Dispatch | src/mql/MQLUtils.cpp:564-591 | a found timer always yields an action; anything posted goes to the timer's window; a visible chart is never skipped |
| TickTimers.DispatchPriority | src/mql/MQLUtils.cpp:564-591 | hidden IF_VISIBLE charts are skipped; then refresh before step-forward before the default tick, to the timer's window |
| TickTimers.Survivors | src/mql/MQLUtils.cpp:674-682 | a remove-all pass never grows the table and leaves only timers whose kill failed |
| TickTimers.SurvivorsAreFailedKills | src/mql/MQLUtils.cpp:674-682 | after removing all, a timer remains exactly when it was there and its kill failed |
| TickTimers.SurvivorsKeepOrder | src/mql/MQLUtils.cpp:674-682 | the remaining timers keep increasing ids and come from the table |
| TickTimers.RemoveAllStep | src/mql/MQLUtils.cpp:677-680 | in the backward pass the timer at i is the first with its id, and removing it keeps the prefix plus survivors |
| TickTimers.TickTimerTable.constructor | src/mql/MQLUtils.cpp:546-627 | the table starts empty with the counter at 10000 |
| TickTimers.TickTimerTable.Setup | src/mql/MQLUtils.cpp:615-642 | rejects foreign windows, millis ≤ 0 and REFRESH with TESTER; otherwise consumes an id; on success appends one timer whose id exceeds all earlier ones |
| TickTimers.TickTimerTable.Remove | src/mql/MQLUtils.cpp:652-669 | rejects ids ≤ 0; erases the first timer with the id when its kill succeeds, keeping order; otherwise no change |
| TickTimers.TickTimerTable.RemoveAll | src/mql/MQLUtils.cpp:674-682 | the table afterwards holds exactly the timers whose kill failed, in order |
| TickTimers.TickTimerTable.Callback | src/mql/MQLUtils.cpp:558-599 | an unknown id is reported; a known one dispatches on its flags by the priority above |
| TickTimers.SetupThenDispatchThenRemove | src/mql/MQLUtils.cpp:558-669 | a newly set-up timer dispatches on its own flags and window, and removing it restores the table |
| SymbolGroups.Name | src/struct/mt4/SymbolGroup.cpp:17-21 | NULL for an invalid pointer, else the stored name |
| SymbolGroups.Description | src/struct/mt4/SymbolGroup.cpp:31-35 | NULL for an invalid pointer, else the stored description |
| SymbolGroups.BackgroundColor | src/struct/mt4/SymbolGroup.cpp:46-52 | CLR_NONE for an invalid pointer; else the stored colour, or White if none, so never 0 |
| SymbolGroups.NameAt | src/struct/mt4/SymbolGroup.cpp:63-68 | NULL for a NULL array or negative index, else sg_Name of the element |
| SymbolGroups.DescriptionAt | src/struct/mt4/SymbolGroup.cpp:79-84 | NULL for a NULL array or negative index, else sg_Description of the element |
| SymbolGroups.BackgroundColorAt | src/struct/mt4/SymbolGroup.cpp:96-103 | CLR_NONE for a NULL array or negative index, else the element's colour, never 0 |
| SymbolGroups.StoredColor | src/struct/mt4/SymbolGroup.cpp:157-160 | a top-byte colour other than CLR_NONE is rejected; CLR_NONE becomes White; RGB colours are kept |
| SymbolGroups.StoredColorIsIdempotent | src/struct/mt4/SymbolGroup.cpp:157-160 | a stored colour is stored unchanged again |
| SymbolGroups.SetName | src/struct/mt4/SymbolGroup.cpp:114-124 | accepts 1..15 characters and stores them, returning the name; else NULL and nothing changes |
| SymbolGroups.SetDescription | src/struct/mt4/SymbolGroup.cpp:135-144 | accepts 0..59 characters (empty clears) and stores them; else NULL and nothing changes |
| SymbolGroups.SetBackgroundColor | src/struct/mt4/SymbolGroup.cpp:155-163 | stores and returns the normalised colour; returns CLR_NONE exactly when it rejects, changing nothing |
| SymbolGroups.SetNameAt | src/struct/mt4/SymbolGroup.cpp:175-180 | rejects a NULL array or negative index, otherwise sg_SetName on that element only |
| SymbolGroups.SetDescriptionAt | src/struct/mt4/SymbolGroup.cpp:192-197 | rejects a NULL array or negative index, otherwise sg_SetDescription on that element only |
| SymbolGroups.SetBackgroundColorAt | src/struct/mt4/SymbolGroup.cpp:209-214 | rejects a NULL array or negative index, otherwise sg_SetBackgroundColor on that element only |
| SymbolGroups.SetThenGet | src/struct/mt4/SymbolGroup.cpp:46-162 | set values read back (black reads as White) and other groups are untouched |

## Left out

- Logging: the `debug`/`warn`/`error` calls that accompany every error return, and their messages. Only the returned value (0, NULL, FALSE or CLR_NONE) is modelled; `StringEndsWith` and `Setup` additionally report whether they warned.
- ContextChains.ProgramTable.Admit: no bound on the number of programs, and no retirement or detaching of programs. The source shows no bodies for the registry, so these are not modelled.
- ExecutionContext.Apply: the values that the `ec_Set*` functions echo back are not modelled; the updated record is returned instead. The `ec_*` getters are the record's field selectors.
- Execution-context records: the out-of-band diagnostics queue and `EXECUTION_CONTEXT_toStr` are not modelled. The `TEST*` pointer and the DLL error message pointers are opaque values.
- Pointer-validity tests: `(uint)p < MIN_VALID_POINTER` is folded into the NULL (`None`/`null`) case of each argument. For `ShiftIndicatorBuffer` a `null` array is such an invalid pointer; a real NULL buffer, which the source accepts only with a size of 0, is the empty array.
- IndicatorBuffers.ShiftIndicatorBuffer: requires `bars <= bufferSize` whenever both are positive, and `bufferSize` within the array. The source checks neither; past them its memory move reads outside the buffer. Buffer elements are of any type (doubles in the source) because they are only moved.
- SymbolGroups setters and getters: require the index within the array. The `sgs_*` functions do not check the upper bound, and the fixed size of 32 groups is only a constant here.
- SymbolGroups.SetName: the unreachable `strcpy` failure branches (`strcpy` returns its target) are not modelled.
- TickTimers.TickTimerTable.Setup: the static id counter is an unbounded number; the 32-bit wrap-around after about 4.29 billion timers is not modelled. The unused user-data fields of a timer record are left out.
- TickTimers.TickTimerTable.Callback: the window messages themselves (`PostMessage`, `MT4InternalMsg`) are represented by the action returned. The weekend pause is a no-op in the source as well.
- TickTimers flags: they are booleans rather than bits of a DWORD, because the bit values live in a header that is not part of this model.
- MqlUtils.TerminalBuild: the cache of the version numbers in static variables is not modelled, and neither is reading the executable's version resource, which is a parameter here. `GetTerminalVersion` (the dotted version string on the heap) is not modelled.
- MqlUtils.StringCompareCharwise: pointer identity of two non-NULL strings is not modelled. Equal pointers have equal contents, so the result is the same.
- `TimeframeToStr`/`TimeframeDescription`: these are one-line aliases of `PeriodToStr`/`PeriodDescription`.
- Wide-string `StrToLower`/`StrToUpper` (`towlower`/`towupper`): locale-dependent Unicode case mapping is not modelled. The `char` forms follow the "C" locale, which maps only A-Z and a-z.
- Win32, clock and heap plumbing of MQLUtils.cpp is not modelled: application window, UI thread, GMT/local time, window properties, `IntToHexStr`, the `Get*Address` casts of arrays, `ShowWindowCmdToStr` and `WCharsToStr`.
- Concurrency is not modelled: the chain and the timer table are accessed by one thread at a time.
