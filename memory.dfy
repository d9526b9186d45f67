/** The session-memory page: a list of remembered lines that can be extended, searched,
    shortened by one entry and cleared. */
module Memory {
  import opened Text
  import opened Lists

  /** The page's state: the remembered lines, the add box and the search box. */
  datatype Page = Page(memory: seq<string>, newMemory: string, searchTerm: string)

  const InitialMemory: seq<string> := [
    "Remembered: Last UI built was a pricing " + "table.",
    "Remembered: Preferred model is OpenAI GP" + "T-4.",
    "Remembered: User prefers modern, minimal" + " design styles.",
    "Remembered: Frequently uses tool executi" + "on for data visualization."
  ]

  const Prefix: string := "Remembered: "

  /** `addMemory`: blank input is ignored; otherwise the trimmed input is remembered last,
      behind the `Remembered: ` prefix, and the add box is cleared. */
  function AddMemory(p: Page): (r: Page)
    ensures IsBlank(p.newMemory) ==> r == p
    ensures !IsBlank(p.newMemory) ==>
      |r.memory| == |p.memory| + 1 && r.memory[..|p.memory|] == p.memory &&
      r.memory[|p.memory|] == Prefix + Trim(p.newMemory) &&
      r.newMemory == "" && r.searchTerm == p.searchTerm
  {
    if Trim(p.newMemory) != "" then
      var r := p.(memory := p.memory + [Prefix + Trim(p.newMemory)], newMemory := "");
      assert r.memory[..|p.memory|] == p.memory;
      r
    else p
  }

  /** `removeMemory(index)`: exactly the entry at `index` goes, the others keep their order;
      an index outside the list changes nothing. */
  function RemoveMemory(p: Page, index: int): (r: Page)
    ensures r.memory == if 0 <= index < |p.memory| then p.memory[..index] + p.memory[index + 1..] else p.memory
    ensures r.newMemory == p.newMemory && r.searchTerm == p.searchTerm
  {
    DropIndexSlices(p.memory, index);
    p.(memory := DropIndex(p.memory, index))
  }

  /** The Remove button of an entry passes `memory.indexOf(item)`: of equal entries, the first
      one is removed. */
  lemma RemoveButtonRemovesFirst(p: Page, item: string)
    requires item in p.memory
    ensures var k := IndexOf(p.memory, item);
      0 <= k < |p.memory| && p.memory[k] == item && item !in p.memory[..k] &&
      RemoveMemory(p, k).memory == p.memory[..k] + p.memory[k + 1..]
  {
  }

  /** The search test: the entry contains the search term, both in lower case. */
  predicate Matches(item: string, term: string) {
    Contains(ToLower(item), ToLower(term))
  }

  /** `filteredMemory`: the entries matching the search term, in their order. */
  function FilteredMemory(p: Page): (r: seq<string>)
    ensures forall k :: 0 <= k < |r| ==> r[k] in p.memory && Matches(r[k], p.searchTerm)
    ensures forall k :: 0 <= k < |p.memory| && Matches(p.memory[k], p.searchTerm) ==> p.memory[k] in r
  {
    Filter(p.memory, (item: string) => Matches(item, p.searchTerm))
  }

  /** An empty search shows every entry. */
  lemma EmptySearchShowsAll(p: Page)
    requires p.searchTerm == ""
    ensures FilteredMemory(p) == p.memory
  {
    forall k | 0 <= k < |p.memory| ensures Matches(p.memory[k], p.searchTerm) {
      assert ToLower(p.memory[k])[0..0] == ToLower(p.searchTerm);
      assert OccursAt(ToLower(p.memory[k]), ToLower(p.searchTerm), 0);
    }
    FilterAll(p.memory, (item: string) => Matches(item, p.searchTerm));
  }

  /** The search keeps the order of the entries: searching a list made of two parts searches
      each part. */
  lemma SearchKeepsOrder(p: Page, xs: seq<string>, ys: seq<string>)
    requires p.memory == xs + ys
    ensures FilteredMemory(p) == FilteredMemory(p.(memory := xs)) + FilteredMemory(p.(memory := ys))
  {
    FilterAppend(xs, ys, (item: string) => Matches(item, p.searchTerm));
  }

  /** The confirmed Clear All empties the list; a declined confirmation changes nothing. */
  function ClearAll(p: Page, confirmed: bool): (r: Page)
    ensures confirmed ==> r.memory == [] && r.newMemory == p.newMemory && r.searchTerm == p.searchTerm
    ensures !confirmed ==> r == p
  {
    if confirmed then p.(memory := []) else p
  }
}
