/**
 * A ContextChain holds all EXECUTION_CONTEXTs of one MQL program: slot 0 is the master context kept by
 * the DLL, slot 1 the context of the main module (expert, script or indicator), every later slot a
 * library context.
 *
 * The host frees and reallocates records behind the DLL's back, so a reference to a record is a
 * Handle (slot and generation) that is re-checked on every access: an access through a handle whose
 * record has been invalidated or replaced fails with StaleContext instead of reading the old memory.
 */
module ContextChains {
  import opened Expander
  import opened ExecutionContext

  const MASTER: nat := 0
  const MAIN: nat := 1

  datatype Slot = Slot(ec: Context, valid: bool, generation: nat)

  /** What a module holds instead of a raw pointer: the slot and the generation it was handed. */
  datatype Handle = Handle(slot: nat, generation: nat)

  datatype AccessError = StaleContext | NotPermitted | ImmutableField

  datatype Result<T> = Ok(value: T) | Err(error: AccessError)

  /** Slot index of a chain position that is a library context. */
  predicate IsLibrarySlot(i: nat) {
    i >= 2
  }

  /**
   * Which records the module in slot `reader` may access: its own and the master, and, as the
   * special case the header allows, the main module's record from a library and a library's record
   * from the main module. One library never reaches another library's record.
   */
  predicate Permitted(reader: nat, target: nat)
    ensures Permitted(reader, target) ==> target == MASTER || target == reader || target == MAIN || reader == MAIN
  {
    target == MASTER || target == reader || (reader == MAIN && IsLibrarySlot(target))
    || (IsLibrarySlot(reader) && target == MAIN)
  }

  /** Apart from the master record, access is mutual: a module reaches another exactly when that one reaches it. */
  lemma PermittedIsSymmetric(reader: nat, target: nat)
    requires reader != MASTER && target != MASTER
    ensures Permitted(reader, target) == Permitted(target, reader)
  {
  }

  lemma LibrariesDoNotShareRecords(reader: nat, target: nat)
    requires IsLibrarySlot(reader) && IsLibrarySlot(target) && reader != target
    ensures !Permitted(reader, target)
    ensures Permitted(reader, MASTER) && Permitted(reader, MAIN) && Permitted(reader, reader)
  {
  }

  /** A record that may stand in slot 1 of the chain whose master is `master`. */
  predicate FitsMain(master: Context, ec: Context) {
    && ec.fixed.programIndex == master.fixed.programIndex
    && ec.fixed.programType == master.fixed.programType
    && ec.fixed.moduleType == MainModuleType(master.fixed.programType)
  }

  /** A record that may stand in a library slot of the chain whose master is `master`. */
  predicate FitsLibrary(master: Context, ec: Context) {
    && ec.fixed.programIndex == master.fixed.programIndex
    && ec.fixed.moduleType == MT_Library
  }

  class ContextChain {
    var slots: seq<Slot>

    ghost predicate Valid()
      reads this
    {
      && |slots| >= 2
      // the master is always valid
      && slots[MASTER].valid
      && slots[MASTER].ec.fixed.programIndex >= 1
      && FitsMain(slots[MASTER].ec, slots[MAIN].ec)
      && (forall i :: 2 <= i < |slots| ==> FitsLibrary(slots[MASTER].ec, slots[i].ec))
      // experts and scripts keep one main-module record for their whole run
      && (slots[MASTER].ec.fixed.programType != PT_Indicator ==>
            slots[MAIN].valid && slots[MAIN].generation == 0)
    }

    function ProgramType(): ProgramType
      reads this
      requires Valid()
    {
      slots[MASTER].ec.fixed.programType
    }

    /** Whether an access through h reaches a live record. */
    predicate Resolves(h: Handle)
      reads this
    {
      h.slot < |slots| && slots[h.slot].valid && slots[h.slot].generation == h.generation
    }

    /** The handle to the record currently in slot i. */
    function Current(i: nat): Handle
      reads this
      requires i < |slots|
    {
      Handle(i, slots[i].generation)
    }

    constructor (master: Context, main: Context)
      requires master.fixed.programIndex >= 1
      requires FitsMain(master, main)
      ensures Valid()
      ensures slots == [Slot(master, true, 0), Slot(main, true, 0)]
    {
      slots := [Slot(master, true, 0), Slot(main, true, 0)];
    }

    /** The master context can be reached at any time. */
    lemma MasterAlwaysResolves()
      requires Valid()
      ensures Resolves(Current(MASTER))
      ensures Permitted(MAIN, MASTER) && forall i: nat :: Permitted(i, MASTER)
    {
    }

    /**
     * Reads the record behind h on behalf of the module in slot `reader`, a module of this chain. It
     * fails with NotPermitted for a record the reader may not touch and with StaleContext for an
     * invalidated or replaced one.
     */
    method Read(reader: nat, h: Handle) returns (r: Result<Context>)
      requires Valid()
      requires reader < |slots|
      ensures r.Ok? <==> Permitted(reader, h.slot) && Resolves(h)
      ensures r.Ok? ==> r.value == slots[h.slot].ec
      ensures !Permitted(reader, h.slot) ==> r == Err(NotPermitted)
      ensures Permitted(reader, h.slot) && !Resolves(h) ==> r == Err(StaleContext)
    {
      if !Permitted(reader, h.slot) {
        return Err(NotPermitted);
      }
      if h.slot >= |slots| || !slots[h.slot].valid || slots[h.slot].generation != h.generation {
        return Err(StaleContext);
      }
      r := Ok(slots[h.slot].ec);
    }

    /** mec_RootFunction, mec_UninitReason and mec_InitFlags: master reads that cannot fail. */
    method MasterState() returns (rf: RootFunction, ur: UninitializeReason, initFlags: uint32)
      requires Valid()
      ensures rf == slots[MASTER].ec.live.rootFunction
      ensures ur == slots[MASTER].ec.live.uninitReason
      ensures initFlags == slots[MASTER].ec.fixed.initFlags
    {
      var master := slots[MASTER].ec;
      rf, ur, initFlags := master.live.rootFunction, master.live.uninitReason, master.fixed.initFlags;
    }

    /**
     * Applies one ec_Set* call through h on behalf of the module in slot `writer`, a module of this
     * chain. Only variable fields may change once a record is in the chain; the updated record is
     * returned.
     */
    method Update(writer: nat, h: Handle, s: Setter) returns (r: Result<Context>)
      requires Valid()
      requires writer < |slots|
      modifies this
      ensures Valid()
      ensures r.Ok? <==> Permitted(writer, h.slot) && old(Resolves(h)) && s.IsVariable()
      ensures r.Ok? ==> slots == old(slots)[h.slot := old(slots)[h.slot].(ec := Apply(old(slots)[h.slot].ec, s))]
      ensures r.Ok? ==> r.value == slots[h.slot].ec && r.value.fixed == old(slots)[h.slot].ec.fixed
      ensures r.Err? ==> slots == old(slots)
      ensures !Permitted(writer, h.slot) ==> r == Err(NotPermitted)
      ensures Permitted(writer, h.slot) && !old(Resolves(h)) ==> r == Err(StaleContext)
      ensures Permitted(writer, h.slot) && old(Resolves(h)) && !s.IsVariable() ==> r == Err(ImmutableField)
    {
      if !Permitted(writer, h.slot) {
        return Err(NotPermitted);
      }
      if h.slot >= |slots| || !slots[h.slot].valid || slots[h.slot].generation != h.generation {
        return Err(StaleContext);
      }
      if !s.IsVariable() {
        return Err(ImmutableField);
      }
      var updated := Apply(slots[h.slot].ec, s);
      slots := slots[h.slot := slots[h.slot].(ec := updated)];
      r := Ok(updated);
    }

    /** Appends the context of a newly loaded library. */
    method AttachLibrary(lib: Context) returns (h: Handle)
      requires Valid()
      requires FitsLibrary(slots[MASTER].ec, lib)
      modifies this
      ensures Valid()
      ensures slots == old(slots) + [Slot(lib, true, 0)]
      ensures h == Handle(|old(slots)|, 0) && Resolves(h) && IsLibrarySlot(h.slot)
      ensures forall g: Handle :: old(Resolves(g)) ==> Resolves(g)
    {
      h := Handle(|slots|, 0);
      slots := slots + [Slot(lib, true, 0)];
    }

    /**
     * After a library is recompiled or crashes its record is invalid for good. Fails (returning
     * false, changing nothing) for a slot that is not a library slot of this chain.
     */
    method InvalidateLibrary(i: nat) returns (ok: bool)
      requires Valid()
      modifies this
      ensures Valid()
      ensures ok == (IsLibrarySlot(i) && i < |old(slots)|)
      ensures ok ==> slots == old(slots)[i := old(slots)[i].(valid := false)]
      ensures !ok ==> slots == old(slots)
      ensures forall g: Handle :: g.slot == i && ok ==> !Resolves(g)
      ensures forall g: Handle :: Resolves(g) ==> old(Resolves(g))
    {
      ok := IsLibrarySlot(i) && i < |slots|;
      if ok {
        slots := slots[i := slots[i].(valid := false)];
      }
    }

    /**
     * The main module leaves deinit(). An indicator's record is released right away, so from here
     * until the next init() there is no valid main context; an expert's or script's record persists.
     */
    method LeaveDeinit()
      requires Valid()
      modifies this
      ensures Valid()
      ensures ProgramType() == old(ProgramType())
      ensures old(ProgramType()) == PT_Indicator ==>
                slots == old(slots)[MAIN := old(slots)[MAIN].(valid := false)]
      ensures old(ProgramType()) != PT_Indicator ==> slots == old(slots)
      ensures forall g: Handle :: Resolves(g) ==> old(Resolves(g))
    {
      if slots[MASTER].ec.fixed.programType == PT_Indicator {
        slots := slots[MAIN := slots[MAIN].(valid := false)];
      }
    }

    /**
     * An indicator re-enters init(): the host has allocated a fresh record, which takes slot 1 under
     * a new generation. Handles to the released record never resolve again, and the fresh record's
     * fields owe nothing to the old one.
     */
    method ReallocateMain(newRecord: Context) returns (h: Handle)
      requires Valid()
      requires ProgramType() == PT_Indicator && !slots[MAIN].valid
      requires FitsMain(slots[MASTER].ec, newRecord)
      modifies this
      ensures Valid()
      ensures slots == old(slots)[MAIN := Slot(newRecord, true, old(slots)[MAIN].generation + 1)]
      ensures h == Current(MAIN) && Resolves(h) && h.generation > old(slots)[MAIN].generation
      ensures forall g: Handle :: Resolves(g) ==> old(Resolves(g)) || g == h
    {
      h := Handle(MAIN, slots[MAIN].generation + 1);
      slots := slots[MAIN := Slot(newRecord, true, h.generation)];
    }
  }

  /**
   * An indicator with one library runs through a re-initialisation. While the indicator is between
   * deinit() and init() the library's reads of the main context fail with StaleContext, through the
   * handle it held as well as through any handle it could build; after init() the fresh record is
   * read, and the handle from before still fails.
   */
  method IndicatorReinitialisation(master: Context, first: Context, lib: Context, second: Context)
    returns (before: Result<Context>, during: Result<Context>, after: Result<Context>, stale: Result<Context>)
    requires master.fixed.programIndex >= 1 && master.fixed.programType == PT_Indicator
    requires FitsMain(master, first) && FitsMain(master, second) && FitsLibrary(master, lib)
    ensures before == Ok(first)
    ensures during == Err(StaleContext)
    ensures after == Ok(second)
    ensures stale == Err(StaleContext)
  {
    var chain := new ContextChain(master, first);
    var libHandle := chain.AttachLibrary(lib);
    var oldMain := chain.Current(MAIN);
    before := chain.Read(libHandle.slot, oldMain);
    chain.LeaveDeinit();
    during := chain.Read(libHandle.slot, chain.Current(MAIN));
    var newMain := chain.ReallocateMain(second);
    after := chain.Read(libHandle.slot, newMain);
    stale := chain.Read(libHandle.slot, oldMain);
  }

  /**
   * The program table: a program's index is 1-based, and index i names the i-th admitted chain,
   * whose master record carries i as its programIndex.
   */
  class ProgramTable {
    var chains: seq<ContextChain>

    ghost predicate Valid()
      reads this, chains
    {
      && (forall i, j :: 0 <= i < j < |chains| ==> chains[i] != chains[j])
      && (forall i :: 0 <= i < |chains| ==> chains[i].Valid())
      && (forall i :: 0 <= i < |chains| ==> chains[i].slots[MASTER].ec.fixed.programIndex == i + 1)
    }

    constructor ()
      ensures Valid() && chains == []
    {
      chains := [];
    }

    /** Admits a new program: its master and main records receive the next index. */
    method Admit(master: Context, main: Context) returns (index: nat, chain: ContextChain)
      requires Valid()
      requires main.fixed.programType == master.fixed.programType
      requires main.fixed.moduleType == MainModuleType(master.fixed.programType)
      modifies this
      ensures Valid()
      ensures fresh(chain) && chains == old(chains) + [chain]
      ensures index == |old(chains)| + 1 && chain.Valid()
      ensures chain.slots[MASTER].ec.fixed.programIndex == index
      ensures chain.slots[MAIN].ec == Apply(main, OfConstant(SetProgramIndex(index)))
      ensures chain.slots == [Slot(Apply(master, OfConstant(SetProgramIndex(index))), true, 0),
                              Slot(Apply(main, OfConstant(SetProgramIndex(index))), true, 0)]
    {
      index := |chains| + 1;
      var m := Apply(master, OfConstant(SetProgramIndex(index)));
      var mm := Apply(main, OfConstant(SetProgramIndex(index)));
      chain := new ContextChain(m, mm);
      chains := chains + [chain];
    }

    /** Resolves a program index: 0 and indices never handed out name no program. */
    method Lookup(index: nat) returns (r: Option<ContextChain>)
      requires Valid()
      ensures r.Some? <==> 1 <= index <= |chains|
      ensures r.Some? ==> r.value == chains[index - 1] && r.value.Valid()
      ensures r.Some? ==> r.value.slots[MASTER].ec.fixed.programIndex == index
    {
      if index == 0 || index > |chains| {
        return None;
      }
      r := Some(chains[index - 1]);
    }
  }
}
