/**
 * The multi-value search box: a list of chips (the `values` the parent
 * owns) and a text input. Every operation builds the next list, which the
 * component hands to `onChange`; adding, removing and pasting also hand it
 * to `onSearch` when that is set, and "Clear all" does not.
 */
module MultiSearch {
  import opened Wrappers
  import opened Text
  import opened Seqs

  /** The default bound on the number of chips. */
  const DefaultMaxValues: nat := 5

  /** The characters a pasted text is cut at: `/[,;\n]/`. */
  const PasteSeparators: set<char> := {',', ';', '\n'}

  /** The chip list the component keeps to: distinct, trimmed, non-empty chips, at most `maxValues`. */
  predicate ChipList(values: seq<string>, maxValues: nat) {
    && Distinct(values)
    && |values| <= maxValues
    && forall i :: 0 <= i < |values| ==> values[i] != "" && Trim(values[i]) == values[i]
  }

  /** The input is disabled once the list is full. */
  predicate Disabled(values: seq<string>, maxValues: nat) {
    |values| >= maxValues
  }

  // ------------------------------------------------------------------ add

  /**
   * `addValue`: the trimmed text is appended, unless it is empty, already a
   * chip, or the list is full; `None` when nothing is handed on (the input
   * then keeps its text).
   */
  function AddValue(values: seq<string>, maxValues: nat, value: string): (r: Option<seq<string>>)
    ensures r.None? <==> Trim(value) == "" || Trim(value) in values || Disabled(values, maxValues)
    ensures r.Some? ==>
      (|r.value| == |values| + 1 && r.value[..|values|] == values && r.value[|values|] == Trim(value))
  {
    var trimmed := Trim(value);
    if trimmed == "" || trimmed in values || |values| >= maxValues then None
    else Some(values + [trimmed])
  }

  /** An addition keeps the chip list well formed. */
  lemma AddKeepsChipList(values: seq<string>, maxValues: nat, value: string)
    requires ChipList(values, maxValues)
    ensures var r := AddValue(values, maxValues, value);
      r.Some? ==> ChipList(r.value, maxValues)
  {
    TrimIdempotent(value);
  }

  /** The outcome of a key press: the list handed on, if any, and the input's text afterwards. */
  datatype KeyOutcome = KeyOutcome(handed: Option<seq<string>>, input: string)

  /**
   * `handleKeyDown`: Enter or ',' adds the input's text, and a successful
   * addition clears the input; any other key leaves both alone (typing
   * itself is the input's own change handler).
   */
  function KeyDown(values: seq<string>, maxValues: nat, input: string, key: string): (r: KeyOutcome)
    ensures key != "Enter" && key != "," ==> r == KeyOutcome(None, input)
    ensures (key == "Enter" || key == ",") ==> r.handed == AddValue(values, maxValues, input)
    ensures r.input == "" <==> r.handed.Some? || input == ""
  {
    if key == "Enter" || key == "," then
      var added := AddValue(values, maxValues, input);
      if added.Some? then KeyOutcome(added, "") else KeyOutcome(None, input)
    else KeyOutcome(None, input)
  }

  /** Enter on a fresh, non-blank text while there is room adds exactly that chip and clears the input. */
  lemma EnterAdds(values: seq<string>, maxValues: nat, input: string)
    requires Trim(input) != "" && Trim(input) !in values && |values| < maxValues
    ensures KeyDown(values, maxValues, input, "Enter") == KeyOutcome(Some(values + [Trim(input)]), "")
  {
  }

  // --------------------------------------------------------------- remove

  /** `values.filter((_, i) => i !== index)`, position by position. */
  function RemoveValue(values: seq<string>, index: int): (r: seq<string>)
    ensures |r| <= |values|
    decreases |values|
  {
    if values == [] then []
    else (if index == 0 then [] else [values[0]]) + RemoveValue(values[1..], index - 1)
  }

  /** Removing drops exactly the chip at the index and keeps the others in order; an index off the list changes nothing. */
  lemma {:induction false} RemoveValueSpec(values: seq<string>, index: int)
    ensures RemoveValue(values, index)
      == if 0 <= index < |values| then values[..index] + values[index + 1..] else values
    decreases |values|
  {
    if values != [] {
      RemoveValueSpec(values[1..], index - 1);
      if 0 < index < |values| {
        assert values[..index] == [values[0]] + values[1..][..index - 1];
      }
    }
  }

  /** Removing the chip just added gives back the list before the addition. */
  lemma RemoveUndoesAdd(values: seq<string>, maxValues: nat, value: string)
    requires AddValue(values, maxValues, value).Some?
    ensures RemoveValue(AddValue(values, maxValues, value).value, |values|) == values
  {
    RemoveValueSpec(AddValue(values, maxValues, value).value, |values|);
  }

  /** A removal keeps the chip list well formed and re-enables a full input. */
  lemma RemoveKeepsChipList(values: seq<string>, maxValues: nat, index: int)
    requires ChipList(values, maxValues)
    requires 0 <= index < |values|
    ensures ChipList(RemoveValue(values, index), maxValues)
    ensures !Disabled(RemoveValue(values, index), maxValues)
  {
    RemoveValueSpec(values, index);
    var r := RemoveValue(values, index);
    forall i, j | 0 <= i < j < |r|
      ensures r[i] != r[j]
    {
      var i' := if i < index then i else i + 1;
      var j' := if j < index then j else j + 1;
      assert r[i] == values[i'] && r[j] == values[j'];
    }
    forall i | 0 <= i < |r|
      ensures r[i] in values
    {
      var i' := if i < index then i else i + 1;
      assert r[i] == values[i'];
    }
  }

  // ---------------------------------------------------------------- paste

  /** `.map(item => item.trim())`. */
  function TrimAll(parts: seq<string>): (r: seq<string>)
    ensures |r| == |parts|
    ensures forall i :: 0 <= i < |r| ==> r[i] == Trim(parts[i])
  {
    seq(|parts|, i requires 0 <= i < |parts| => Trim(parts[i]))
  }

  /** Whether a pasted piece is kept: not empty and not already a chip. */
  predicate Fresh(values: seq<string>, item: string) {
    item != "" && item !in values
  }

  /** The pieces of a pasted text, trimmed, without empties and without those already chips. */
  function PastedItems(values: seq<string>, text: string): (items: seq<string>)
    ensures forall i :: 0 <= i < |items| ==> Fresh(values, items[i])
  {
    Filter(TrimAll(Split(text, PasteSeparators)), (item: string) => Fresh(values, item))
  }

  /** A text is kept exactly when it is a fresh, trimmed piece of the paste. */
  lemma PastedItemsExact(values: seq<string>, text: string, x: string)
    ensures x in PastedItems(values, text) <==>
      Fresh(values, x) && exists part :: part in Split(text, PasteSeparators) && Trim(part) == x
  {
    var parts := Split(text, PasteSeparators);
    FilterMembers(TrimAll(parts), (item: string) => Fresh(values, item), x);
    if x in TrimAll(parts) {
      var i :| 0 <= i < |parts| && TrimAll(parts)[i] == x;
      assert parts[i] in parts;
    }
    if exists part :: part in parts && Trim(part) == x {
      var part :| part in parts && Trim(part) == x;
      var i :| 0 <= i < |parts| && parts[i] == part;
      assert TrimAll(parts)[i] == x;
    }
  }

  /** `.slice(0, maxValues)`. */
  function Take(s: seq<string>, n: nat): (r: seq<string>)
    ensures |r| == if n < |s| then n else |s|
    ensures r == s[..|r|]
  {
    if n < |s| then s[..n] else s
  }

  /**
   * `handlePaste` as written: the pieces are checked against the chips
   * already there, but not against each other, so a piece pasted twice is
   * appended twice.
   */
  function PasteAsWritten(values: seq<string>, maxValues: nat, text: string): seq<string> {
    Take(values + PastedItems(values, text), maxValues)
  }

  /** Pasting "a,a" into an empty box gives two equal chips, which an addition by hand never allows. */
  lemma PasteRepeats()
    ensures PasteAsWritten([], DefaultMaxValues, "a,a") == ["a", "a"]
    ensures !ChipList(PasteAsWritten([], DefaultMaxValues, "a,a"), DefaultMaxValues)
  {
    var text := "a,a";
    assert Split("a", PasteSeparators) == ["a"] by {
      assert FirstIndexIn("a", PasteSeparators) == 1 by {
        assert FirstIndexIn("a"[1..], PasteSeparators) == 0;
      }
    }
    assert Split(text, PasteSeparators) == ["a", "a"] by {
      assert FirstIndexIn(text, PasteSeparators) == 1 by {
        assert FirstIndexIn(text[1..], PasteSeparators) == 0;
      }
      assert text[..1] == "a" && text[2..] == "a";
    }
    assert Trim("a") == "a" by {
      TrimFixed("a");
    }
    assert TrimAll(["a", "a"]) == ["a", "a"];
    assert PastedItems([], text) == ["a", "a"];
  }

  /**
   * `handlePaste` as intended: each fresh piece once, in the order first
   * pasted, appended, and the list cut at `maxValues`.
   */
  function Paste(values: seq<string>, maxValues: nat, text: string): (r: seq<string>)
    ensures |values| <= maxValues ==> |values| <= |r| <= maxValues && r[..|values|] == values
  {
    Take(values + Dedup(PastedItems(values, text)), maxValues)
  }

  /** A paste keeps the chip list well formed, and every chip it adds is a fresh, trimmed piece of the paste. */
  lemma PasteKeepsChipList(values: seq<string>, maxValues: nat, text: string)
    requires ChipList(values, maxValues)
    ensures ChipList(Paste(values, maxValues, text), maxValues)
    ensures var r := Paste(values, maxValues, text);
      forall i :: |values| <= i < |r| ==> r[i] in PastedItems(values, text)
  {
    var items := PastedItems(values, text);
    var d := Dedup(items);
    var all := values + d;
    forall x | x in d
      ensures x in items
    {
      DedupMembers(items, x);
    }
    forall x | x in items
      ensures x != "" && Trim(x) == x && x !in values
    {
      var parts := Split(text, PasteSeparators);
      PastedItemsExact(values, text, x);
      var part :| part in parts && Trim(part) == x;
      TrimIdempotent(part);
    }
    assert Distinct(all) by {
      forall i, j | 0 <= i < j < |all|
        ensures all[i] != all[j]
      {
        if j >= |values| {
          assert all[j] in d;
          if i < |values| {
            assert all[i] in values;
          }
        }
      }
    }
    var r := Paste(values, maxValues, text);
    assert r == all[..|r|];
    forall i | |values| <= i < |r|
      ensures r[i] in items
    {
      assert r[i] == d[i - |values|];
    }
  }

  /**
   * A paste fills the list: it ends with every fresh piece once when they
   * all fit, and at `maxValues` chips otherwise.
   */
  lemma PasteLength(values: seq<string>, maxValues: nat, text: string)
    requires |values| <= maxValues
    ensures var n := |values| + |Dedup(PastedItems(values, text))|;
      |Paste(values, maxValues, text)| == if n <= maxValues then n else maxValues
  {
  }

  /** When the fresh pieces all fit, each of them is a chip after the paste. */
  lemma PasteAddsFresh(values: seq<string>, maxValues: nat, text: string, part: string)
    requires |values| + |Dedup(PastedItems(values, text))| <= maxValues
    requires part in Split(text, PasteSeparators) && Fresh(values, Trim(part))
    ensures Trim(part) in Paste(values, maxValues, text)
  {
    var items := PastedItems(values, text);
    PastedItemsExact(values, text, Trim(part));
    DedupMembers(items, Trim(part));
    assert Paste(values, maxValues, text) == values + Dedup(items);
  }

  /** Pasting pieces that are already chips, or blank, changes nothing. */
  lemma PasteNothingNew(values: seq<string>, maxValues: nat, text: string)
    requires |values| <= maxValues
    requires forall part :: part in Split(text, PasteSeparators) ==> !Fresh(values, Trim(part))
    ensures Paste(values, maxValues, text) == values
  {
    var items := PastedItems(values, text);
    if items != [] {
      PastedItemsExact(values, text, items[0]);
    }
    assert Dedup(items) == [];
    assert values + [] == values;
  }

  // ---------------------------------------------------------------- clear

  /** "Clear all": the empty list. */
  function ClearAll(values: seq<string>): (r: seq<string>)
    ensures forall maxValues: nat :: ChipList(r, maxValues)
    ensures forall maxValues: nat :: maxValues > 0 ==> !Disabled(r, maxValues)
  {
    []
  }

  // ------------------------------------------------------------ callbacks

  /** The lists an operation hands on: to `onChange`, and to `onSearch` if it is called. */
  datatype Handoff = Handoff(changed: seq<string>, searched: Option<seq<string>>)

  /** `onChange(next); if (onSearch) onSearch(next)`, as adding, removing and pasting end. */
  function Notify(next: seq<string>, hasOnSearch: bool): (h: Handoff)
    ensures h.changed == next
    ensures h.searched.Some? <==> hasOnSearch
    ensures h.searched.Some? ==> h.searched.value == h.changed
  {
    Handoff(next, if hasOnSearch then Some(next) else None)
  }

  /** The "Clear all" button: `onChange([])` alone. */
  function ClearAllHandoff(values: seq<string>, hasOnSearch: bool): (h: Handoff)
    ensures h.changed == ClearAll(values) && h.searched.None?
  {
    Handoff(ClearAll(values), None)
  }

  /**
   * Clearing a non-empty list with `onSearch` set is the one change the
   * search does not hear of: the parent is told the list is empty but is
   * not asked to search again, while a removal of the last chip asks it.
   */
  lemma ClearSkipsSearch(values: seq<string>)
    requires |values| == 1
    ensures ClearAllHandoff(values, true).changed == RemoveValue(values, 0)
    ensures ClearAllHandoff(values, true).searched.None?
    ensures Notify(RemoveValue(values, 0), true).searched == Some([])
  {
    RemoveValueSpec(values, 0);
  }

  /** After clearing, any non-blank text can be added again when the bound is positive. */
  lemma ClearThenAdd(values: seq<string>, maxValues: nat, value: string)
    requires maxValues > 0 && Trim(value) != ""
    ensures AddValue(ClearAll(values), maxValues, value) == Some([Trim(value)])
  {
  }
}
