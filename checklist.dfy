/** What the todo list and the shopping list share: entries with a
    completion flag that the lists flip in place, the comparator of their
    re-sort, and the blank-title test of their add operations. */
module Checklist {
  import opened Prelude

  /** A todo or shopping-list entry. `createdAt` is the creation time in
      milliseconds; only `completed` is ever changed in place. */
  class Entry {
    const id: string
    const title: string
    var completed: bool
    const createdAt: int

    constructor (id: string, title: string, completed: bool, createdAt: int)
      ensures this.id == id && this.title == title
      ensures this.completed == completed && this.createdAt == createdAt
    {
      this.id := id;
      this.title := title;
      this.completed := completed;
      this.createdAt := createdAt;
    }
  }

  function IdIs(id: string): Entry -> bool {
    (e: Entry) => e.id == id
  }

  function IdIsNot(id: string): Entry -> bool {
    (e: Entry) => e.id != id
  }

  // ---------------------------------------------------------------------
  // Blank titles
  // ---------------------------------------------------------------------

  /** The characters `String.prototype.trim` removes: white space and line
      terminators. */
  predicate IsSpace(c: char) {
    || c == '\t' || c == '\n' || c == '\U{B}' || c == '\U{C}' || c == '\r' || c == ' '
    || c == '\U{A0}' || c == '\U{1680}' || ('\U{2000}' <= c <= '\U{200A}')
    || c == '\U{2028}' || c == '\U{2029}' || c == '\U{202F}' || c == '\U{205F}'
    || c == '\U{3000}' || c == '\U{FEFF}'
  }

  /** The white space `trim` removes, in ASCII and at a few points beyond:
      tab, the line and form feeds and the space; the no-break, ideographic
      and zero-width no-break spaces and the line separator; but not the
      zero-width space or the next-line control. */
  lemma WhiteSpaceSet()
    ensures forall c: char :: c < '\U{80}' ==> (IsSpace(c) <==> c in "\t\n\U{B}\U{C}\r ")
    ensures IsSpace('\U{A0}') && IsSpace('\U{3000}') && IsSpace('\U{FEFF}') && IsSpace('\U{2028}')
    ensures !IsSpace('\U{200B}') && !IsSpace('\U{85}')
  {
  }

  /** `s` without its leading white space. */
  function TrimStart(s: string): (r: string)
    ensures r == [] <==> forall k :: 0 <= k < |s| ==> IsSpace(s[k])
    ensures r != [] ==> !IsSpace(r[0])
  {
    if s == [] then []
    else if IsSpace(s[0]) then TrimStart(s[1..])
    else s
  }

  /** `s` without its trailing white space. */
  function TrimEnd(s: string): (r: string)
    ensures r == [] <==> forall k :: 0 <= k < |s| ==> IsSpace(s[k])
  {
    if s == [] then []
    else if IsSpace(s[|s| - 1]) then TrimEnd(s[..|s| - 1])
    else s
  }

  /** `title.trim()`. */
  function Trim(s: string): string {
    TrimEnd(TrimStart(s))
  }

  /** `!title.trim()`: the title is empty once trimmed. */
  predicate IsBlank(title: string): (b: bool)
    ensures b <==> Trim(title) == ""
  {
    forall k :: 0 <= k < |title| ==> IsSpace(title[k])
  }

  // ---------------------------------------------------------------------
  // The re-sort after a toggle
  // ---------------------------------------------------------------------

  /** The comparator of the re-sort, on the flags and creation times of
      two entries: open before completed, newer before older. */
  function Compare(aDone: bool, aTime: int, bDone: bool, bTime: int): (r: int)
    ensures aDone == bDone ==> (r < 0 <==> aTime > bTime) && (r == 0 <==> aTime == bTime)
    ensures aDone != bDone ==> (r < 0 <==> !aDone) && r != 0
  {
    if aDone == bDone then bTime - aTime else if aDone then 1 else -1
  }

  /** `a` may stand before `b` in the sorted list. */
  predicate Before(aDone: bool, aTime: int, bDone: bool, bTime: int) {
    Compare(aDone, aTime, bDone, bTime) <= 0
  }

  /** The order the comparator asks for: every open entry before every
      completed one and, within each group, creation times non-increasing. */
  lemma BeforeMeansOrder(aDone: bool, aTime: int, bDone: bool, bTime: int)
    ensures Before(aDone, aTime, bDone, bTime) <==> (!aDone && bDone) || (aDone == bDone && aTime >= bTime)
  {
  }

  ghost predicate Sorted(s: seq<Entry>)
    reads s
  {
    forall i, j :: 0 <= i < j < |s| ==> Before(s[i].completed, s[i].createdAt, s[j].completed, s[j].createdAt)
  }

  /** The flag of `e`, were the flag of `t` equal to `flag`. */
  function FlagAs(e: Entry, t: Entry, flag: bool): bool
    reads e
  {
    if e == t then flag else e.completed
  }

  /** `s` would be sorted were the flag of `t` equal to `flag`. */
  ghost predicate SortedAs(s: seq<Entry>, t: Entry, flag: bool)
    reads s
  {
    forall i, j :: 0 <= i < j < |s| ==>
      Before(FlagAs(s[i], t, flag), s[i].createdAt, FlagAs(s[j], t, flag), s[j].createdAt)
  }

  /** Inserting `e` after every entry that may precede it keeps a sorted
      list sorted. */
  lemma InsertSorted(r: seq<Entry>, k: nat, e: Entry)
    requires Sorted(r) && k <= |r|
    requires forall m :: 0 <= m < k ==> Before(r[m].completed, r[m].createdAt, e.completed, e.createdAt)
    requires k < |r| ==> !Before(r[k].completed, r[k].createdAt, e.completed, e.createdAt)
    ensures Sorted(r[..k] + [e] + r[k..])
  {
    var n := r[..k] + [e] + r[k..];
    forall i, j | 0 <= i < j < |n|
      ensures Before(n[i].completed, n[i].createdAt, n[j].completed, n[j].createdAt)
    {
      if j == k {
        assert n[i] == r[i];
      } else if i == k {
        assert n[j] == r[j - 1];
        assert j - 1 == k || Before(r[k].completed, r[k].createdAt, r[j - 1].completed, r[j - 1].createdAt);
      } else {
        assert n[i] == if i < k then r[i] else r[i - 1];
        assert n[j] == if j < k then r[j] else r[j - 1];
      }
    }
  }

  /** The in-place `sort` of the list, as an insertion sort that puts each
      entry after every entry that may precede it. */
  method SortEntries(s: seq<Entry>) returns (r: seq<Entry>)
    ensures multiset(r) == multiset(s)
    ensures Sorted(r)
  {
    r := [];
    for i := 0 to |s|
      invariant multiset(r) == multiset(s[..i])
      invariant Sorted(r)
    {
      var e := s[i];
      var k := 0;
      while k < |r| && Before(r[k].completed, r[k].createdAt, e.completed, e.createdAt)
        invariant 0 <= k <= |r|
        invariant forall m :: 0 <= m < k ==> Before(r[m].completed, r[m].createdAt, e.completed, e.createdAt)
      {
        k := k + 1;
      }
      InsertSorted(r, k, e);
      assert r == r[..k] + r[k..];
      r := r[..k] + [e] + r[k..];
      assert s[..i + 1] == s[..i] + [e];
    }
    assert s[..|s|] == s;
  }

  /** Sorted for the flag an entry has is plain sortedness. */
  lemma SortedAsOwnFlag(s: seq<Entry>, t: Entry)
    ensures SortedAs(s, t, t.completed) <==> Sorted(s)
  {
    assert forall e: Entry :: FlagAs(e, t, t.completed) == e.completed;
  }

  /** The list behind the todo store and the shopping-list store: entries
      newest first, with optimistic inserts, toggles and deletes that are
      rolled back when the backend reports an error. `ok` stands for "the
      backend reported no error". */
  class EntryList {
    var entries: seq<Entry>

    constructor ()
      ensures entries == []
    {
      entries := [];
    }

    /** Adding an entry: a blank title changes nothing; otherwise a
        temporary open entry with the fresh `tempId` goes to the front and
        is then dropped again on an error, replaced by the stored row, or
        kept when the backend returns neither. */
    method Add(title: string, tempId: string, now: int, outcome: InsertOutcome<Entry>)
      requires forall k :: 0 <= k < |entries| ==> entries[k].id != tempId
      modifies this
      ensures IsBlank(title) || outcome.Failed? ==> entries == old(entries)
      ensures !IsBlank(title) && outcome.Inserted? ==> entries == [outcome.row] + old(entries)
      ensures !IsBlank(title) && outcome.NoRow? ==>
        && |entries| == |old(entries)| + 1 && entries[1..] == old(entries)
        && fresh(entries[0]) && entries[0].id == tempId && entries[0].title == title
        && !entries[0].completed && entries[0].createdAt == now
    {
      if IsBlank(title) {
        return;
      }
      var temp := new Entry(tempId, title, false, now);
      ghost var before := entries;
      entries := [temp] + entries;
      match outcome
      case Failed =>
        FilterKeepsAll(before, IdIsNot(tempId));
        assert entries == [temp] + before;
        entries := Filter(entries, IdIsNot(tempId));
      case Inserted(row) =>
        var index := FindIndex(entries, IdIs(tempId));
        if index != -1 {
          entries := entries[index := row];
        }
      case NoRow =>
    }

    /** Toggling an entry: its flag flips, the list is re-sorted for the
        new flag, and on an error only the flag is restored, not the order. */
    method Toggle(e: Entry, ok: bool)
      modifies this, e
      ensures e.completed == (ok != old(e.completed))
      ensures multiset(entries) == multiset(old(entries))
      ensures SortedAs(entries, e, !old(e.completed))
      ensures ok ==> Sorted(entries)
    {
      var oldStatus := e.completed;
      e.completed := !oldStatus;
      entries := SortEntries(entries);
      SortedAsOwnFlag(entries, e);
      if !ok {
        e.completed := oldStatus;
      }
    }

    /** Deleting by id: every entry with the id is dropped, and the earlier
        list is restored on an error. */
    method Delete(id: string, ok: bool)
      modifies this
      ensures entries == if ok then Filter(old(entries), IdIsNot(id)) else old(entries)
      ensures ok ==> forall k :: 0 <= k < |entries| ==> entries[k].id != id
    {
      var previous := entries;
      entries := Filter(entries, IdIsNot(id));
      if !ok {
        entries := previous;
      }
    }
  }
}
