/**
  Homepage navigation configuration: the table from menu keys to the page
  sections they cover, the top-to-bottom order of those sections, and the
  resolver that turns a snapshot of the page layout into the active section
  and the active menu key.
 */
module NavigationConfig {

  datatype Option<T> = None | Some(value: T)

  /** One entry of the section map: a menu key and the page sections it covers. */
  datatype MenuEntry = MenuEntry(key: string, sections: seq<string>)

  /** The section map, entries in the order they are enumerated. */
  const SectionMap: seq<MenuEntry> := [
    MenuEntry("hero", ["hero"]),
    MenuEntry("capabilities", ["capabilities", "deliverables"]),
    MenuEntry("features", ["features", "process"]),
    MenuEntry("agent-showcase", ["agent-showcase", "open-source"]),
    MenuEntry("pricing", ["pricing", "cta", "footer"])
  ]

  /** Pixel threshold below the viewport top at which a section becomes active. */
  const ScrollOffset: real := 100.0

  /** Milliseconds the manual-scroll guard stays set after a desktop click. */
  const ManualScrollTimeout: nat := 500

  predicate IsMenuKey(k: string) {
    exists i :: 0 <= i < |SectionMap| && SectionMap[i].key == k
  }

  /** No page section is listed under two different menu entries. */
  predicate PairwiseDisjoint(entries: seq<MenuEntry>) {
    forall i, j, s :: 0 <= i < j < |entries| && s in entries[i].sections ==> s !in entries[j].sections
  }

  /** The sections of all entries, entry after entry. */
  function Flatten(entries: seq<MenuEntry>): seq<string> {
    if entries == [] then [] else entries[0].sections + Flatten(entries[1..])
  }

  predicate Distinct(ids: seq<string>) {
    forall i, j :: 0 <= i < j < |ids| ==> ids[i] != ids[j]
  }

  // ---------------------------------------------------------------------------
  // Menu key lookup

  /** Index of the first entry whose list holds `id`, or |entries| when none does. */
  function FirstOwner(entries: seq<MenuEntry>, id: string): (k: nat)
    ensures k <= |entries|
    ensures forall j :: 0 <= j < k ==> id !in entries[j].sections
    ensures k < |entries| ==> id in entries[k].sections
  {
    if entries == [] then 0
    else if id in entries[0].sections then 0
    else 1 + FirstOwner(entries[1..], id)
  }

  /** The menu key owning page section `id`; `id` itself when no entry lists it. */
  function MenuSectionFor(id: string): (r: string)
    ensures forall i :: 0 <= i < |SectionMap| && id in SectionMap[i].sections ==> r == SectionMap[i].key
    ensures (forall i :: 0 <= i < |SectionMap| ==> id !in SectionMap[i].sections) ==> r == id
  {
    SectionMapDisjoint();
    var k := FirstOwner(SectionMap, id);
    if k < |SectionMap| then SectionMap[k].key else id
  }

  lemma SectionMapDisjoint()
    ensures PairwiseDisjoint(SectionMap)
  {
    AllSectionIdsDistinct();
    FlattenDistinctIsDisjoint(SectionMap);
  }

  /** Page section ids in the order they appear on the page, top to bottom. */
  function AllSectionIds(): (ids: seq<string>)
    ensures ids == Flatten(SectionMap)
  {
    ["hero", "capabilities", "deliverables", "features", "process",
     "agent-showcase", "open-source", "pricing", "cta", "footer"]
  }

  lemma AllSectionIdsDistinct()
    ensures Distinct(AllSectionIds())
  {
    var ids := AllSectionIds();
    // no two ids agree on their first character, third character and length
    forall i, j | 0 <= i < j < |ids| ensures ids[i] != ids[j] {
      assert ids[i][0] != ids[j][0] || ids[i][2] != ids[j][2] || |ids[i]| != |ids[j]|;
    }
  }

  lemma {:induction false} FlattenMembership(entries: seq<MenuEntry>, id: string)
    ensures id in Flatten(entries) <==> exists i :: 0 <= i < |entries| && id in entries[i].sections
  {
    if entries != [] {
      FlattenMembership(entries[1..], id);
      if id in Flatten(entries[1..]) {
        var i :| 0 <= i < |entries[1..]| && id in entries[1..][i].sections;
        assert id in entries[i + 1].sections;
      }
      if exists i :: 0 <= i < |entries| && id in entries[i].sections {
        var i :| 0 <= i < |entries| && id in entries[i].sections;
        if i > 0 {
          assert id in entries[1..][i - 1].sections;
        }
      }
    }
  }

  lemma {:induction false} FlattenDistinctIsDisjoint(entries: seq<MenuEntry>)
    requires Distinct(Flatten(entries))
    ensures PairwiseDisjoint(entries)
  {
    if entries != [] {
      var head, rest := entries[0].sections, Flatten(entries[1..]);
      assert Flatten(entries) == head + rest;
      assert Distinct(rest) by {
        forall i, j | 0 <= i < j < |rest| ensures rest[i] != rest[j] {
          assert rest[i] == Flatten(entries)[|head| + i];
          assert rest[j] == Flatten(entries)[|head| + j];
        }
      }
      FlattenDistinctIsDisjoint(entries[1..]);
      forall i, j, s | 0 <= i < j < |entries| && s in entries[i].sections
        ensures s !in entries[j].sections
      {
        if i == 0 {
          DistinctHeadNotInRest(head, rest, s);
          FlattenMembership(entries[1..], s);
          assert entries[1..][j - 1] == entries[j];
        } else {
          assert entries[1..][i - 1] == entries[i] && entries[1..][j - 1] == entries[j];
        }
      }
    }
  }

  lemma DistinctHeadNotInRest(head: seq<string>, rest: seq<string>, s: string)
    requires Distinct(head + rest) && s in head
    ensures s !in rest
  {
    var a :| 0 <= a < |head| && head[a] == s;
    assert (head + rest)[a] == s;
    forall b | 0 <= b < |rest| ensures rest[b] != s {
      assert (head + rest)[|head| + b] == rest[b];
    }
  }

  /** Every section id on the page is owned by exactly one menu entry. */
  lemma {:induction false} ListedSectionHasOwner(id: string)
    requires id in AllSectionIds()
    ensures exists i :: 0 <= i < |SectionMap| && id in SectionMap[i].sections
    ensures IsMenuKey(MenuSectionFor(id))
  {
    FlattenMembership(SectionMap, id);
    var i :| 0 <= i < |SectionMap| && id in SectionMap[i].sections;
    assert MenuSectionFor(id) == SectionMap[i].key;
  }

  /**
    Every menu key is also the id of a section it covers, so the key a click
    highlights optimistically is the key the resolver gives for that section.
   */
  lemma OptimisticHighlightAgrees(k: string)
    requires IsMenuKey(k)
    ensures k in AllSectionIds()
    ensures MenuSectionFor(k) == k
  {
    var i :| 0 <= i < |SectionMap| && SectionMap[i].key == k;
    assert k in SectionMap[i].sections;
    FlattenMembership(SectionMap, k);
  }

  // ---------------------------------------------------------------------------
  // Scroll position resolver

  /** Viewport-relative bounding box of a rendered section. */
  datatype Rect = Rect(top: real, bottom: real)

  /** Snapshot of the page: the box of every element that is present, by id. */
  type Layout = map<string, Rect>

  /** The section is present and its top has reached the offset line. */
  predicate Started(layout: Layout, id: string, offset: real) {
    id in layout && layout[id].top <= offset
  }

  /** The section has started and has not scrolled entirely out above the viewport. */
  predicate Candidate(layout: Layout, id: string, offset: real) {
    Started(layout, id, offset) && layout[id].bottom > 0.0
  }

  /** The section is present and its top is still below the offset line. */
  predicate NotYetStarted(layout: Layout, id: string, offset: real) {
    id in layout && layout[id].top > offset
  }

  /** Index of the first present section that has not started, or |ids|: where the scan stops. */
  function StopIndex(ids: seq<string>, layout: Layout, offset: real): (k: nat)
    ensures k <= |ids|
    ensures forall j :: 0 <= j < k ==> !NotYetStarted(layout, ids[j], offset)
    ensures k < |ids| ==> NotYetStarted(layout, ids[k], offset)
  {
    if ids == [] then 0
    else if NotYetStarted(layout, ids[0], offset) then 0
    else 1 + StopIndex(ids[1..], layout, offset)
  }

  /** Largest index below n whose section is a candidate, or 0 when there is none. */
  function LastCandidate(ids: seq<string>, layout: Layout, offset: real, n: nat): (k: nat)
    requires n <= |ids|
    ensures n > 0 ==> k < n
    ensures k == 0 || (k < n && Candidate(layout, ids[k], offset))
    ensures forall j :: k < j < n ==> !Candidate(layout, ids[j], offset)
  {
    if n == 0 then 0
    else if Candidate(layout, ids[n - 1], offset) then n - 1
    else LastCandidate(ids, layout, offset, n - 1)
  }

  /** Position in `ids` of the section the resolver reports. */
  function ActiveIndex(ids: seq<string>, layout: Layout, offset: real): nat
  {
    LastCandidate(ids, layout, offset, StopIndex(ids, layout, offset))
  }

  /**
    The section the resolver reports: the last candidate before the first
    present section that has not started, and the first id when there is none.
   */
  function ClosestSection(ids: seq<string>, layout: Layout, offset: real): (r: Option<string>)
    ensures r.Some? <==> |ids| > 0
    ensures r.Some? ==> r.value in ids
  {
    if ids == [] then None
    else Some(ids[ActiveIndex(ids, layout, offset)])
  }

  /** Scans the page sections top to bottom and returns the active one. */
  method FindClosestSection(layout: Layout, offset: real) returns (active: Option<string>)
    ensures active == ClosestSection(AllSectionIds(), layout, offset)
  {
    var all := AllSectionIds();
    active := Some(all[0]);
    var i := 0;
    while i < |all|
      invariant i <= StopIndex(all, layout, offset)
      invariant active == Some(all[LastCandidate(all, layout, offset, i)])
    {
      var section := all[i];
      if section in layout {
        var rect := layout[section];
        if rect.top <= offset {
          if rect.bottom > 0.0 {
            active := Some(section);
          }
        } else {
          break;
        }
      }
      i := i + 1;
    }
    assert i == StopIndex(all, layout, offset);
  }

  /** The active menu key: the owner of the active section, 'hero' when there is none. */
  function ActiveMenuKey(layout: Layout, offset: real): (key: string)
    ensures IsMenuKey(key)
  {
    match ClosestSection(AllSectionIds(), layout, offset)
    case None => "hero"
    case Some(id) =>
      ListedSectionHasOwner(id);
      MenuSectionFor(id)
  }

  /** Resolves the menu key to highlight for the current scroll position. */
  method GetActiveMenuSection(layout: Layout, offset: real) returns (key: string)
    ensures key == ActiveMenuKey(layout, offset)
    ensures IsMenuKey(key)
  {
    var closest := FindClosestSection(layout, offset);
    if closest.None? {
      key := "hero";
    } else {
      key := MenuSectionFor(closest.value);
    }
  }

  // ---------------------------------------------------------------------------
  // Properties of the resolver

  /**
    Last wins: index c is reported exactly when it is the last candidate before
    the stop, or when it is the first id and no candidate precedes the stop.
   */
  lemma ActiveIndexCharacterized(ids: seq<string>, layout: Layout, offset: real, c: nat)
    requires c < |ids|
    ensures ActiveIndex(ids, layout, offset) == c <==>
      var stop := StopIndex(ids, layout, offset);
      || (c < stop && Candidate(layout, ids[c], offset)
          && forall j :: c < j < stop ==> !Candidate(layout, ids[j], offset))
      || (c == 0 && forall j :: 0 <= j < stop ==> !Candidate(layout, ids[j], offset))
  {
  }

  /** With no section started, the resolver reports the first section of the page. */
  lemma DefaultIsHero(layout: Layout, offset: real)
    requires forall id :: id in AllSectionIds() ==> !Started(layout, id, offset)
    ensures ClosestSection(AllSectionIds(), layout, offset) == Some("hero")
    ensures ActiveMenuKey(layout, offset) == "hero"
  {
    assert MenuSectionFor("hero") == SectionMap[0].key;
  }

  /** Lowering the offset line further into the page never moves the result back up. */
  lemma ActiveIndexMonotone(ids: seq<string>, layout: Layout, o1: real, o2: real)
    requires o1 <= o2
    ensures ActiveIndex(ids, layout, o1) <= ActiveIndex(ids, layout, o2)
  {
    var s1 := StopIndex(ids, layout, o1);
    var k1 := LastCandidate(ids, layout, o1, s1);
    if k1 != 0 {
      assert Candidate(layout, ids[k1], o2);
    }
  }

  /** A section index in the listing without its j-th id. */
  function Skip(i: nat, j: nat): nat {
    if i < j then i else i + 1
  }

  /**
    An id with no element neither stops the scan nor changes its result:
    dropping it from the list (after the first position) gives the same answer.
   */
  lemma AbsentSectionSkipped(ids: seq<string>, layout: Layout, offset: real, j: nat)
    requires 0 < j < |ids| && ids[j] !in layout
    ensures ClosestSection(ids[..j] + ids[j + 1..], layout, offset) == ClosestSection(ids, layout, offset)
  {
    var rest := ids[..j] + ids[j + 1..];
    assert forall i :: 0 <= i < |rest| ==> rest[i] == ids[Skip(i, j)];
    var stop, stop' := StopIndex(ids, layout, offset), StopIndex(rest, layout, offset);
    assert stop != j;
    // the stop moves with the listing
    if stop' < j {
      assert NotYetStarted(layout, ids[stop'], offset);
    }
    assert Skip(stop', j) == stop || (stop' == |rest| && stop == |ids|) by {
      if stop < j {
        assert NotYetStarted(layout, rest[stop], offset);
      } else if stop < |ids| {
        assert rest[stop - 1] == ids[stop];
      }
    }
    var k, k' := LastCandidate(ids, layout, offset, stop), LastCandidate(rest, layout, offset, stop');
    // and so does the last candidate
    if k' != 0 {
      assert Candidate(layout, ids[Skip(k', j)], offset);
    }
    if k != 0 {
      assert k != j;
      assert Candidate(layout, rest[if k < j then k else k - 1], offset);
    }
    assert ids[Skip(k', j)] == ids[k];
  }

  /** The example of a page scrolled into its capabilities section. */
  lemma CapabilitiesScenario(layout: Layout)
    requires layout == map["hero" := Rect(-500.0, 50.0), "capabilities" := Rect(50.0, 400.0),
                           "deliverables" := Rect(400.0, 900.0), "features" := Rect(900.0, 1400.0)]
    ensures ClosestSection(AllSectionIds(), layout, ScrollOffset) == Some("capabilities")
    ensures ActiveMenuKey(layout, ScrollOffset) == "capabilities"
  {
    var ids := AllSectionIds();
    assert !NotYetStarted(layout, ids[0], ScrollOffset) && !NotYetStarted(layout, ids[1], ScrollOffset);
    assert NotYetStarted(layout, ids[2], ScrollOffset);
    assert StopIndex(ids, layout, ScrollOffset) == 2;
    assert Candidate(layout, ids[1], ScrollOffset);
    assert ActiveIndex(ids, layout, ScrollOffset) == 1;
    assert MenuSectionFor("capabilities") == SectionMap[1].key;
  }
}
