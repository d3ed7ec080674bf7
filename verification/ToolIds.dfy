/** Tool id lists: trimmed, legacy ids replaced, duplicates dropped. */
module ToolIds {
  import opened InsertionOrder
  import opened NormalForms
  import opened Text
  import opened Wrappers

  function CanonicalizeToolId(toolId: string): string {
    var normalized := Trim(toolId);
    if normalized == "tool.fs.read" then "read"
    else if normalized == "tool.fs.write" then "write"
    else if normalized == "tool.exec" then "bash"
    else if normalized == "tool.http.fetch" then "webfetch"
    else if normalized == "mcp.memory.seed" then "memory.seed"
    else if normalized == "mcp.memory.search" then "memory.search"
    else if normalized == "mcp.memory.write" then "memory.write"
    else normalized
  }

  function ListExpansion(toolId: string): Option<seq<string>> {
    if toolId == "tool.*" then Some(["*"])
    else if toolId == "tool.fs.*" then Some(["read", "write", "edit", "apply_patch", "glob", "grep"])
    else None
  }

  /** What one entry of a list stands for; a blank entry for nothing. */
  function ExpandEntry(raw: string): seq<string> {
    var normalized := Trim(raw);
    if normalized == [] then []
    else
      var expansion := ListExpansion(normalized);
      if expansion.Some? then expansion.value else [CanonicalizeToolId(normalized)]
  }

  /** What one entry stands for when legacy groups are not expanded. */
  function ExactEntry(raw: string): seq<string> {
    var toolId := CanonicalizeToolId(raw);
    if toolId == [] then [] else [toolId]
  }

  function PlainEntry(raw: string): seq<string> {
    var normalized := Trim(raw);
    if normalized == [] then [] else [normalized]
  }

  // ---------- The tables ----------

  const LEGACY_TOOL_IDS := map["tool.fs.read" := "read", "tool.fs.write" := "write", "tool.exec" := "bash",
                               "tool.http.fetch" := "webfetch", "mcp.memory.seed" := "memory.seed",
                               "mcp.memory.search" := "memory.search", "mcp.memory.write" := "memory.write"]

  const LEGACY_GROUPS := map["tool.*" := ["*"],
                             "tool.fs.*" := ["read", "write", "edit", "apply_patch", "glob", "grep"]]

  /** Blank entries stand for nothing, legacy ids for their replacement, legacy groups for their members or, in the
      exact form, for themselves, and any other id for itself, trimmed. */
  lemma EntryMeaning(raw: string)
    ensures var id := Trim(raw);
      && ExpandEntry(raw) == (if id == "" then [] else if id in LEGACY_GROUPS then LEGACY_GROUPS[id]
                              else if id in LEGACY_TOOL_IDS then [LEGACY_TOOL_IDS[id]] else [id])
      && ExactEntry(raw) == (if id == "" then [] else if id in LEGACY_TOOL_IDS then [LEGACY_TOOL_IDS[id]] else [id])
      && PlainEntry(raw) == (if id == "" then [] else [id])
  {
    hide Trim;
    assert Trim(Trim(raw)) == Trim(raw);
  }

  /** A list of ids as items without payload. */
  function Bare(ids: seq<string>): seq<Item<()>> {
    Stamp(ids, ())
  }

  function Ids(items: seq<Item<()>>): (ids: seq<string>)
    ensures |ids| == |items| && forall i :: 0 <= i < |ids| ==> ids[i] == items[i].id
  {
    seq(|items|, i requires 0 <= i < |items| => items[i].id)
  }

  function NormalIds(expand: string -> seq<string>, ids: seq<string>): seq<string> {
    Ids(Normal(expand, Bare(ids)))
  }

  /** The list holds each id once, exactly those the entries stand for. */
  lemma NormalIdsMeaning(expand: string -> seq<string>, toolIds: seq<string>)
    ensures var r := NormalIds(expand, toolIds);
      Distinct(r) && forall k :: k in r <==> exists i :: 0 <= i < |toolIds| && k in expand(toolIds[i])
  {
    hide Collect, Expanded, LastIndex, Distinct;
    var items := Bare(toolIds);
    var all := Expanded(expand, items);
    var m := Collect(Empty<()>(), all);
    CollectMeaning(all);
    ExpandedMembers(expand, items);
    KeysOfListing(m);
    forall k ensures k in m.keys <==> exists i :: 0 <= i < |toolIds| && k in expand(toolIds[i]) {
      if i :| 0 <= i < |toolIds| && k in expand(toolIds[i]) {
        assert items[i].id == toolIds[i] && items[i].payload == ();
        assert Item(k, ()) in all;
      }
      if LastIndex(all, k) >= 0 {
        assert all[LastIndex(all, k)] in all;
      }
    }
  }

  lemma KeysOfListing(m: OrderedMap<()>)
    ensures Ids(Listing(m)) == m.keys && Distinct(m.keys) && forall k :: k in m.keys <==> k in m.entries
  {
  }

  /** The loop shared by the list functions: each id is pushed the first time it is seen. */
  method PushAll(expand: string -> seq<string>, toolIds: seq<string>) returns (result: seq<string>)
    ensures result == NormalIds(expand, toolIds)
  {
    hide Collect, Expanded, Stamp;
    result := [];
    var seen: set<string> := {};
    ghost var collected: OrderedMap<()>, items := Empty(), Bare(toolIds);
    NothingCollected(expand, items);
    for i := 0 to |toolIds|
      invariant collected == Collect(Empty(), Expanded(expand, items[..i]))
      invariant result == collected.keys && forall id :: id in seen <==> id in result
    {
      var expanded := expand(toolIds[i]);
      ghost var before, more := Expanded(expand, items[..i]), Stamp(expanded, ());
      CollectEnds(Empty(), before, more);
      for j := 0 to |expanded|
        invariant collected == Collect(Empty(), before + more[..j])
        invariant result == collected.keys && forall id :: id in seen <==> id in result
      {
        CollectStep(Empty(), before, more, j);
        if expanded[j] !in seen {
          seen := seen + {expanded[j]};
          result := result + [expanded[j]];
        }
        collected := Put(collected, expanded[j], ());
      }
      ExpandedStep(expand, items, i);
    }
    assert items[..|toolIds|] == items;
    assert Ids(Listing(collected)) == collected.keys;
  }

  method CanonicalizeToolIdList(toolIds: seq<string>) returns (result: seq<string>)
    ensures result == NormalIds(ExpandEntry, toolIds)
    ensures Distinct(result)
    ensures forall k :: k in result <==> exists i :: 0 <= i < |toolIds| && k in ExpandEntry(toolIds[i])
  {
    hide NormalIds, Distinct, ExpandEntry;
    NormalIdsMeaning(ExpandEntry, toolIds);
    result := PushAll(ExpandEntry, toolIds);
  }

  method NormalizeStringIdList(toolIds: seq<string>) returns (result: seq<string>)
    ensures result == NormalIds(PlainEntry, toolIds)
    ensures Distinct(result)
    ensures forall k :: k in result <==> exists i :: 0 <= i < |toolIds| && k in PlainEntry(toolIds[i])
  {
    hide NormalIds, Distinct, PlainEntry;
    NormalIdsMeaning(PlainEntry, toolIds);
    result := PushAll(PlainEntry, toolIds);
  }

  method CanonicalizeExactToolIdList(toolIds: seq<string>) returns (result: seq<string>)
    ensures result == NormalIds(ExactEntry, toolIds)
    ensures Distinct(result)
    ensures forall k :: k in result <==> exists i :: 0 <= i < |toolIds| && k in ExactEntry(toolIds[i])
  {
    hide NormalIds, Distinct, ExactEntry;
    NormalIdsMeaning(ExactEntry, toolIds);
    result := PushAll(ExactEntry, toolIds);
  }

  // ---------- Laws ----------

  /** A canonical id: trimmed, not empty, and in none of the tables. */
  predicate Canonical(e: string) {
    Trimmed(e) && e != [] && CanonicalizeToolId(e) == e && ListExpansion(e).None?
  }

  lemma ReplacementsAreCanonical()
    ensures Canonical("read") && Canonical("write") && Canonical("bash") && Canonical("webfetch")
    ensures Canonical("memory.seed") && Canonical("memory.search") && Canonical("memory.write")
  {
    hide Trim;
  }

  lemma ExpansionsAreCanonical()
    ensures Canonical("*")
    ensures Canonical("edit")
    ensures Canonical("apply_patch")
    ensures Canonical("glob")
    ensures Canonical("grep")
  {
    hide Trim;
  }

  /** Expansion yields canonical ids, which expansion leaves alone. */
  lemma ExpansionSettles()
    ensures Settling(ExpandEntry)
  {
    hide Trim;
    forall id, e | e in ExpandEntry(id) ensures ExpandEntry(e) == [e] {
      ExpandsToCanonical(id, e);
    }
  }

  lemma ExpandsToCanonical(id: string, e: string)
    requires e in ExpandEntry(id)
    ensures Canonical(e) && Trim(e) == e
  {
    hide Trim;
    ReplacementsAreCanonical();
    ExpansionsAreCanonical();
    assert Trim(Trim(id)) == Trim(id);
  }

  lemma BareOfIds(items: seq<Item<()>>)
    ensures Bare(Ids(items)) == items
  {
    var r := Bare(Ids(items));
    forall i | 0 <= i < |items| ensures r[i] == items[i] {
      var item := items[i];
      assert item.payload == ();
      assert item == Item(item.id, item.payload);
    }
  }

  lemma BareConcat(a: seq<string>, b: seq<string>)
    ensures Bare(a + b) == Bare(a) + Bare(b)
  {
  }

  /** Building a list is idempotent, and building either part of a concatenation first does not matter. */
  lemma ListLaws(expand: string -> seq<string>, a: seq<string>, b: seq<string>)
    requires Settling(expand)
    ensures NormalIds(expand, NormalIds(expand, a)) == NormalIds(expand, a)
    ensures NormalIds(expand, NormalIds(expand, a) + b) == NormalIds(expand, a + b)
    ensures NormalIds(expand, a + NormalIds(expand, b)) == NormalIds(expand, a + b)
  {
    hide Normal, Bare, Ids, Settling;
    NormalIsIdempotent(expand, Bare(a));
    NormalOfConcat(expand, Bare(a), Bare(b));
    BareOfIds(Normal(expand, Bare(a)));
    BareOfIds(Normal(expand, Bare(b)));
    BareConcat(a, b);
    BareConcat(NormalIds(expand, a), b);
    BareConcat(a, NormalIds(expand, b));
  }

  lemma CanonicalizationLaws(a: seq<string>, b: seq<string>)
    ensures NormalIds(ExpandEntry, NormalIds(ExpandEntry, a)) == NormalIds(ExpandEntry, a)
    ensures NormalIds(ExpandEntry, NormalIds(ExpandEntry, a) + b) == NormalIds(ExpandEntry, a + b)
    ensures NormalIds(ExpandEntry, a + NormalIds(ExpandEntry, b)) == NormalIds(ExpandEntry, a + b)
  {
    ExpansionSettles();
    ListLaws(ExpandEntry, a, b);
  }

  /** The exact form obeys the same laws: no replacement is itself replaced. */
  lemma ExactListLaws(a: seq<string>, b: seq<string>)
    ensures NormalIds(ExactEntry, NormalIds(ExactEntry, a)) == NormalIds(ExactEntry, a)
    ensures NormalIds(ExactEntry, NormalIds(ExactEntry, a) + b) == NormalIds(ExactEntry, a + b)
    ensures NormalIds(ExactEntry, a + NormalIds(ExactEntry, b)) == NormalIds(ExactEntry, a + b)
  {
    ExactSettles();
    ListLaws(ExactEntry, a, b);
  }

  lemma ExactSettles()
    ensures Settling(ExactEntry)
  {
    hide Trim;
    ReplacementsAreCanonical();
  }

  /** The result is exactly the ids the entries stand for, each once, in order of first occurrence, none of them
      legacy. */
  lemma CanonicalListMeaning(toolIds: seq<string>)
    ensures var all, r := Expanded(ExpandEntry, Bare(toolIds)), NormalIds(ExpandEntry, toolIds);
      && (forall i, j :: 0 <= i < j < |r| ==> r[i] != r[j] && FirstIndex(all, r[i]) < FirstIndex(all, r[j]))
      && (forall k :: k in r <==> FirstIndex(all, k) >= 0)
      && (forall i :: 0 <= i < |r| ==> ExpandEntry(r[i]) == [r[i]])
  {
    hide ExpandEntry, Bare, Normal, FirstIndex, LastIndex;
    ExpansionSettles();
    NormalMeaning(ExpandEntry, Bare(toolIds));
    var all, r := Expanded(ExpandEntry, Bare(toolIds)), NormalIds(ExpandEntry, toolIds);
    var items := Normal(ExpandEntry, Bare(toolIds));
    forall k ensures k in r <==> FirstIndex(all, k) >= 0 {
      SameOccurrence(all, k);
      if k in r {
        var i :| 0 <= i < |r| && r[i] == k;
        assert items[i].id == k;
      }
      if LastIndex(all, k) >= 0 {
        var i :| 0 <= i < |items| && items[i].id == k;
        assert r[i] == k;
      }
    }
  }
}
