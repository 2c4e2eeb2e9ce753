/**
 * Attendee groups as an order stores them, and the one-line attendee summary
 * (`renderKinek`) that the admin order list and the customer's own order list
 * both show. The two components carry identical copies of the formatter, so
 * one method models both.
 */
module Attendees {
  import opened Wrappers
  import opened Text
  import opened Seqs

  /** The id of the table-reservation product. */
  const TableTicket := "asztal"
  /** The label every table-reservation chunk of the summary starts with. */
  const TableLabel := "Asztalfoglalás"

  /**
   * One attendee group: a cart line's snapshot. `names` is the per-seat name
   * list; `attendees` is the older field name the formatter falls back to.
   * `tableName`/`tableSize` are present on table groups only.
   */
  datatype Group = Group(
    ticketId: string,
    title: string,
    names: Option<seq<string>>,
    attendees: Option<seq<string>>,
    tableName: Option<string>,
    tableSize: Option<int>)

  /** The stored `attendees` value: a JSON array whose entries may be null (None), or any non-array value. */
  datatype AttendeesJson = NotArray | Entries(entries: seq<Option<Group>>)

  /** ` – N fő` when the table size is present and truthy (non-zero), else nothing. */
  function SizeSuffix(g: Group): string {
    match g.tableSize
    case Some(n) => if n != 0 then " – " + IntToString(n) + " fő" else ""
    case None => ""
  }

  /** ` – NAME névre` when the table name is non-empty, else nothing. */
  function NameSuffix(g: Group): string {
    var nm := g.tableName.GetOr("");
    if nm != "" then " – " + nm + " névre" else ""
  }

  /** The table-reservation chunk of a group. */
  function Chunk(g: Group): string {
    TableLabel + SizeSuffix(g) + NameSuffix(g)
  }

  /** `a?.names || a?.attendees || []`: an array is truthy even when empty. */
  function NamesOf(e: Option<Group>): seq<string> {
    match e
    case None => []
    case Some(g) => if g.names.Some? then g.names.value else g.attendees.GetOr([])
  }

  /** `Boolean` as a filter on strings: only the empty string is falsy. */
  function Truthy(s: string): bool {
    s != ""
  }

  /** The names of an entry that the summary shows, in order. */
  function ShownNames(e: Option<Group>): seq<string> {
    Filter(NamesOf(e), Truthy)
  }

  /** The parts one entry pushes: a table chunk for a table group, then its names joined by ", " if any. */
  function EntryParts(e: Option<Group>): seq<string> {
    var chunk := if e.Some? && e.value.ticketId == TableTicket then [Chunk(e.value)] else [];
    var shown := ShownNames(e);
    chunk + (if |shown| > 0 then [Join(shown, ", ")] else [])
  }

  /** The parts of a sequence of entries, entry by entry in input order. */
  function Parts(es: seq<Option<Group>>): seq<string> {
    FlatMap(es, EntryParts)
  }

  /** The body of `renderKinek`'s loop for one entry: the table chunk, then the joined names if any. */
  method PushEntry(parts: seq<string>, a: Option<Group>) returns (r: seq<string>)
    ensures r == parts + EntryParts(a)
  {
    r := parts;
    if a.Some? && a.value.ticketId == TableTicket {
      r := r + [Chunk(a.value)];
    }
    var list := ShownNames(a);
    if |list| > 0 {
      r := r + [Join(list, ", ")];
    }
  }

  /** `renderKinek(attendees)`: the `for ... of` loop pushing parts, then `parts.join(" | ")`. */
  method RenderKinek(attendees: AttendeesJson) returns (r: string)
    ensures attendees.NotArray? ==> r == ""
    ensures attendees.Entries? ==> r == Join(Parts(attendees.entries), " | ")
  {
    if attendees.NotArray? {
      return "";
    }
    var es := attendees.entries;
    var parts: seq<string> := [];
    for k := 0 to |es|
      invariant parts == FlatMapPrefix(es, k, EntryParts)
    {
      parts := PushEntry(parts, es[k]);
    }
    r := Join(parts, " | ");
  }

  /** The parts of a concatenation are the parts of each half, in order: the summary keeps input order. */
  lemma PartsAppend(a: seq<Option<Group>>, b: seq<Option<Group>>)
    ensures Parts(a + b) == Parts(a) + Parts(b)
  {
    FlatMapAppend(a, b, EntryParts);
  }

  /**
   * What one entry contributes. A table group contributes a chunk first; any
   * other entry contributes no chunk. A names part is present exactly when some
   * name is non-empty, and it holds only non-empty names.
   */
  lemma EntryPartsShape(e: Option<Group>)
    ensures e.Some? && e.value.ticketId == TableTicket ==>
      |EntryParts(e)| >= 1 && EntryParts(e)[0] == Chunk(e.value)
    ensures !(e.Some? && e.value.ticketId == TableTicket) ==>
      |EntryParts(e)| <= 1 && forall k :: 0 <= k < |EntryParts(e)| ==> EntryParts(e)[k] == Join(ShownNames(e), ", ")
    ensures |ShownNames(e)| > 0 <==> exists k :: 0 <= k < |NamesOf(e)| && NamesOf(e)[k] != ""
    ensures forall k :: 0 <= k < |ShownNames(e)| ==> ShownNames(e)[k] != ""
    ensures forall x :: x in ShownNames(e) <==> x in NamesOf(e) && x != ""
    ensures |EntryParts(e)| ==
      (if e.Some? && e.value.ticketId == TableTicket then 1 else 0) + (if |ShownNames(e)| > 0 then 1 else 0)
    ensures |ShownNames(e)| > 0 ==> EntryParts(e)[|EntryParts(e)| - 1] == Join(ShownNames(e), ", ")
  {
    var names := NamesOf(e);
    if exists k :: 0 <= k < |names| && names[k] != "" {
      var k :| 0 <= k < |names| && names[k] != "";
      FilterMembership(names, Truthy, names[k]);
    } else {
      FilterDropsAll(names, Truthy);
    }
    forall x ensures x in ShownNames(e) <==> x in names && x != "" {
      FilterMembership(names, Truthy, x);
    }
  }

  /** A names array takes precedence even when empty: the older `attendees` field is then ignored. */
  lemma NamesArrayWins(g: Group)
    requires g.names == Some([])
    ensures ShownNames(Some(g)) == []
    ensures g.ticketId != TableTicket ==> EntryParts(Some(g)) == []
  {
  }

  /**
   * The table chunk starts with the label; the size suffix appears only for a
   * truthy size and the name suffix only for a non-empty name. Without either
   * the chunk is the bare label; a named table's chunk ends with ` – NAME névre`.
   */
  lemma ChunkShape(g: Group)
    ensures Chunk(g)[..|TableLabel|] == TableLabel
    ensures SizeSuffix(g) != "" <==> g.tableSize.Some? && g.tableSize.value != 0
    ensures NameSuffix(g) != "" <==> g.tableName.Some? && g.tableName.value != ""
    ensures (g.tableSize.None? || g.tableSize.value == 0) && g.tableName.GetOr("") == "" ==> Chunk(g) == TableLabel
    ensures g.tableName.GetOr("") != "" ==>
      var tail := " – " + g.tableName.value + " névre";
      |Chunk(g)| >= |tail| && Chunk(g)[|Chunk(g)| - |tail|..] == tail
  {
  }

  /** Every part of the summary is non-empty. */
  lemma PartsNonEmpty(es: seq<Option<Group>>)
    ensures forall k :: 0 <= k < |Parts(es)| ==> Parts(es)[k] != ""
  {
    forall k | 0 <= k < |es| ensures forall j :: 0 <= j < |EntryParts(es[k])| ==> Truthy(EntryParts(es[k])[j]) {
      EntryPartNonEmpty(es[k]);
    }
    FlatMapAll(es, EntryParts, Truthy);
  }

  /** No part one entry pushes is empty: the chunk starts with the label, and a names part joins non-empty names. */
  lemma EntryPartNonEmpty(e: Option<Group>)
    ensures forall j :: 0 <= j < |EntryParts(e)| ==> EntryParts(e)[j] != ""
  {
    EntryPartsShape(e);
    var shown := ShownNames(e);
    if |shown| > 0 {
      assert |Join(shown, ", ")| >= |shown[0]| > 0 by {
        JoinEmptyIff(shown, ", ");
      }
    }
  }

  /** An entry that contributes nothing: not a table group, and no non-empty name. */
  predicate Silent(e: Option<Group>) {
    !(e.Some? && e.value.ticketId == TableTicket) && ShownNames(e) == []
  }

  /** One entry pushes nothing exactly when it is silent. */
  lemma EntryPartsEmptyIff(e: Option<Group>)
    ensures EntryParts(e) == [] <==> Silent(e)
  {
  }

  /** The parts are empty exactly when every entry is silent. */
  lemma PartsEmptyIff(es: seq<Option<Group>>)
    ensures Parts(es) == [] <==> forall k :: 0 <= k < |es| ==> Silent(es[k])
  {
    FlatMapEmptyIff(es, EntryParts);
    forall k | 0 <= k < |es| ensures EntryParts(es[k]) == [] <==> Silent(es[k]) {
      EntryPartsEmptyIff(es[k]);
    }
  }

  /** `renderKinek` yields "" exactly when every entry is silent (and for a non-array). */
  lemma RenderEmptyIff(es: seq<Option<Group>>)
    ensures Join(Parts(es), " | ") == "" <==> forall k :: 0 <= k < |es| ==> Silent(es[k])
  {
    PartsNonEmpty(es);
    JoinEmptyIff(Parts(es), " | ");
    PartsEmptyIff(es);
  }
}
