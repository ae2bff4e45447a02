/**
 * MT4 symbol groups (the records of the file "symgroups.raw", which has room for exactly 32 groups,
 * any of which may be undefined) and their field accessors.
 *
 * The sg_* functions take a pointer to one group; the sgs_* functions take the array and an index.
 * A group lives inside an array, so a pointer to one is the pair (groups, i), and a NULL array
 * stands for a pointer below MIN_VALID_POINTER. Text arguments are C strings (None: a pointer
 * below MIN_VALID_POINTER, NULL included).
 */
module SymbolGroups {
  import opened Expander
  import StringUtil

  /** The number of group slots in the file. */
  const GROUP_COUNT: nat := 32
  /** The sizes of the name and description buffers, terminator included. */
  const NAME_CAPACITY: nat := 16
  const DESCRIPTION_CAPACITY: nat := 60
  /** MQL's White, the colour shown for a group without background colour. */
  const WHITE: uint32 := 0x00FF_FFFF

  datatype SymbolGroup = SymbolGroup(name: string, description: string, backgroundColor: uint32)

  // ---------------------------------------------------------------------------------------------
  // Getters

  /** sg_Name */
  function Name(groups: array?<SymbolGroup>, i: nat): (r: StringUtil.CStr)
    requires groups != null ==> i < groups.Length
    reads groups
    ensures r.None? <==> groups == null
    ensures groups != null ==> r.value == groups[i].name
  {
    if groups == null then None else Some(groups[i].name)
  }

  /** sg_Description */
  function Description(groups: array?<SymbolGroup>, i: nat): (r: StringUtil.CStr)
    requires groups != null ==> i < groups.Length
    reads groups
    ensures r.None? <==> groups == null
    ensures groups != null ==> r.value == groups[i].description
  {
    if groups == null then None else Some(groups[i].description)
  }

  /**
   * sg_BackgroundColor: the stored colour, White where none is stored (0), CLR_NONE for an invalid
   * pointer. A valid group never reads as 0.
   */
  function BackgroundColor(groups: array?<SymbolGroup>, i: nat): (r: uint32)
    requires groups != null ==> i < groups.Length
    reads groups
    ensures groups == null ==> r == CLR_NONE
    ensures groups != null ==> r != 0 && (groups[i].backgroundColor != 0 ==> r == groups[i].backgroundColor)
    ensures groups != null && groups[i].backgroundColor == 0 ==> r == WHITE
  {
    if groups == null then ClrNoneOf(0)
    else if groups[i].backgroundColor != 0 then groups[i].backgroundColor
    else WHITE
  }

  /** sgs_Name: NULL for a NULL array or a negative index, otherwise sg_Name of element index. */
  function NameAt(groups: array?<SymbolGroup>, index: int): (r: StringUtil.CStr)
    requires groups != null && index >= 0 ==> index < groups.Length
    reads groups
    ensures groups == null || index < 0 ==> r.None?
    ensures groups != null && index >= 0 ==> r == Name(groups, index)
  {
    if groups == null || index < 0 then None else Name(groups, index)
  }

  /** sgs_Description */
  function DescriptionAt(groups: array?<SymbolGroup>, index: int): (r: StringUtil.CStr)
    requires groups != null && index >= 0 ==> index < groups.Length
    reads groups
    ensures groups == null || index < 0 ==> r.None?
    ensures groups != null && index >= 0 ==> r == Description(groups, index)
  {
    if groups == null || index < 0 then None else Description(groups, index)
  }

  /** sgs_BackgroundColor */
  function BackgroundColorAt(groups: array?<SymbolGroup>, index: int): (r: uint32)
    requires groups != null && index >= 0 ==> index < groups.Length
    reads groups
    ensures groups == null || index < 0 ==> r == CLR_NONE
    ensures groups != null && index >= 0 ==> r == BackgroundColor(groups, index) && r != 0
  {
    if groups == null || index < 0 then ClrNoneOf(0) else BackgroundColor(groups, index)
  }

  // ---------------------------------------------------------------------------------------------
  // Validation

  /** A name takes 1 to 15 characters, leaving room for the terminator. */
  predicate ValidName(name: string) {
    0 < |name| <= NAME_CAPACITY - 1
  }

  /** A description takes up to 59 characters; the empty one clears it. */
  predicate ValidDescription(description: string) {
    |description| <= DESCRIPTION_CAPACITY - 1
  }

  /**
   * The colour a setter stores: an RGB value (top byte clear) as it is, CLR_NONE as White (the
   * terminal would show it black), and nothing for any other value with a top-byte bit set.
   */
  function StoredColor(color: uint32): (r: Option<uint32>)
    ensures r.None? <==> color >= 0x0100_0000 && color != CLR_NONE
    ensures r.Some? ==> r.value < 0x0100_0000 && r.value != CLR_NONE
    ensures color < 0x0100_0000 ==> r == Some(color)
    ensures color == CLR_NONE ==> r == Some(WHITE)
  {
    if color >= 0x0100_0000 then
      if color != CLR_NONE then None else Some(WHITE)
    else Some(color)
  }

  /** Storing a stored colour again keeps it. */
  lemma StoredColorIsIdempotent(color: uint32)
    ensures StoredColor(color).Some? ==> StoredColor(StoredColor(color).value) == StoredColor(color)
  {
  }

  // ---------------------------------------------------------------------------------------------
  // Setters. Each rewrites one field of one element; a rejected call changes nothing.

  /** sg_SetName: returns the name on success, NULL on failure. */
  method SetName(groups: array?<SymbolGroup>, i: nat, name: StringUtil.CStr) returns (r: StringUtil.CStr)
    requires groups != null ==> i < groups.Length
    modifies groups
    ensures var accepted := groups != null && name.Some? && ValidName(name.value);
            (accepted ==> r == name && groups[..] == old(groups[..])[i := old(groups[i]).(name := name.value)])
            && (!accepted ==> r.None? && (groups != null ==> groups[..] == old(groups[..])))
  {
    if groups == null || name.None? {
      return None;
    }
    var len := |name.value|;
    if len == 0 || len > NAME_CAPACITY - 1 {
      return None;
    }
    groups[i] := groups[i].(name := name.value);
    return name;
  }

  /** sg_SetDescription: returns the description on success, NULL on failure. */
  method SetDescription(groups: array?<SymbolGroup>, i: nat, description: StringUtil.CStr) returns (r: StringUtil.CStr)
    requires groups != null ==> i < groups.Length
    modifies groups
    ensures var accepted := groups != null && description.Some? && ValidDescription(description.value);
            (accepted ==> r == description
                          && groups[..] == old(groups[..])[i := old(groups[i]).(description := description.value)])
            && (!accepted ==> r.None? && (groups != null ==> groups[..] == old(groups[..])))
  {
    if groups == null || description.None? {
      return None;
    }
    if |description.value| > DESCRIPTION_CAPACITY - 1 {
      return None;
    }
    groups[i] := groups[i].(description := description.value);
    return description;
  }

  /** sg_SetBackgroundColor: returns the stored colour, or CLR_NONE exactly when it rejects. */
  method SetBackgroundColor(groups: array?<SymbolGroup>, i: nat, color: uint32) returns (r: uint32)
    requires groups != null ==> i < groups.Length
    modifies groups
    ensures r == CLR_NONE <==> groups == null || StoredColor(color).None?
    ensures groups != null && StoredColor(color).Some? ==>
              r == StoredColor(color).value
              && groups[..] == old(groups[..])[i := old(groups[i]).(backgroundColor := r)]
    ensures groups != null && StoredColor(color).None? ==> groups[..] == old(groups[..])
  {
    if groups == null {
      return ClrNoneOf(0);
    }
    var c := color;
    if c >= 0x0100_0000 {          // color & 0xFF000000
      if c != CLR_NONE {
        return ClrNoneOf(0);
      }
      c := WHITE;
    }
    groups[i] := groups[i].(backgroundColor := c);
    return c;
  }

  /** sgs_SetName: NULL for a NULL array or a negative index, otherwise sg_SetName on element index. */
  method SetNameAt(groups: array?<SymbolGroup>, index: int, name: StringUtil.CStr) returns (r: StringUtil.CStr)
    requires groups != null && index >= 0 ==> index < groups.Length
    modifies groups
    ensures var accepted := groups != null && index >= 0 && name.Some? && ValidName(name.value);
            (accepted ==> r == name && groups[..] == old(groups[..])[index := old(groups[index]).(name := name.value)])
            && (!accepted ==> r.None? && (groups != null ==> groups[..] == old(groups[..])))
  {
    if groups == null || index < 0 {
      return None;
    }
    r := SetName(groups, index, name);
  }

  /** sgs_SetDescription */
  method SetDescriptionAt(groups: array?<SymbolGroup>, index: int, description: StringUtil.CStr) returns (r: StringUtil.CStr)
    requires groups != null && index >= 0 ==> index < groups.Length
    modifies groups
    ensures var accepted := groups != null && index >= 0 && description.Some? && ValidDescription(description.value);
            (accepted ==> r == description
                          && groups[..] == old(groups[..])[index := old(groups[index]).(description := description.value)])
            && (!accepted ==> r.None? && (groups != null ==> groups[..] == old(groups[..])))
  {
    if groups == null || index < 0 {
      return None;
    }
    r := SetDescription(groups, index, description);
  }

  /** sgs_SetBackgroundColor */
  method SetBackgroundColorAt(groups: array?<SymbolGroup>, index: int, color: uint32) returns (r: uint32)
    requires groups != null && index >= 0 ==> index < groups.Length
    modifies groups
    ensures r == CLR_NONE <==> groups == null || index < 0 || StoredColor(color).None?
    ensures groups != null && index >= 0 && StoredColor(color).Some? ==>
              r == StoredColor(color).value
              && groups[..] == old(groups[..])[index := old(groups[index]).(backgroundColor := r)]
    ensures groups != null && (index < 0 || StoredColor(color).None?) ==> groups[..] == old(groups[..])
  {
    if groups == null || index < 0 {
      return ClrNoneOf(0);
    }
    r := SetBackgroundColor(groups, index, color);
  }

  /**
   * Reading back what the setters stored: the name and description exactly, the colour as stored
   * unless it is black (0), which reads as White like an unset colour. Every other group of the
   * array reads as before.
   */
  method SetThenGet(groups: array<SymbolGroup>, index: nat, name: string, description: string, color: uint32, other: nat)
    returns (readName: StringUtil.CStr, readDescription: StringUtil.CStr, readColor: uint32)
    requires index < groups.Length && other < groups.Length && other != index
    requires ValidName(name) && ValidDescription(description) && StoredColor(color).Some?
    modifies groups
    ensures readName == Some(name) && readDescription == Some(description)
    ensures readColor == (if StoredColor(color).value == 0 then WHITE else StoredColor(color).value)
    ensures groups[other] == old(groups[other])
  {
    var r1 := SetNameAt(groups, index, Some(name));
    var r2 := SetDescriptionAt(groups, index, Some(description));
    var r3 := SetBackgroundColorAt(groups, index, color);
    readName := NameAt(groups, index);
    readDescription := DescriptionAt(groups, index);
    readColor := BackgroundColorAt(groups, index);
  }
}
