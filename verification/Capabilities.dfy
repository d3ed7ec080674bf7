/** Capability descriptors: deprecated ids are expanded and migrated to canonical ones. */
module Capabilities {
  import opened InsertionOrder
  import opened NormalForms

  const BROWSER_AUTOMATION_CAPABILITY_IDS := [
    "tyrum.browser.navigate", "tyrum.browser.navigate-back", "tyrum.browser.snapshot", "tyrum.browser.click",
    "tyrum.browser.type", "tyrum.browser.fill-form", "tyrum.browser.select-option", "tyrum.browser.hover",
    "tyrum.browser.drag", "tyrum.browser.press-key", "tyrum.browser.screenshot", "tyrum.browser.evaluate",
    "tyrum.browser.wait-for", "tyrum.browser.tabs", "tyrum.browser.upload-file", "tyrum.browser.console-messages",
    "tyrum.browser.network-requests", "tyrum.browser.resize", "tyrum.browser.close", "tyrum.browser.handle-dialog",
    "tyrum.browser.run-code", "tyrum.browser.launch"]

  const DESKTOP_CAPABILITY_IDS := [
    "tyrum.desktop.screenshot", "tyrum.desktop.snapshot", "tyrum.desktop.query", "tyrum.desktop.act",
    "tyrum.desktop.mouse", "tyrum.desktop.keyboard", "tyrum.desktop.wait-for"]

  const SENSOR_CAPABILITY_IDS := ["tyrum.location.get", "tyrum.camera.capture-photo", "tyrum.audio.record"]

  /** Deprecated ids and what replaces them. */
  const LEGACY_ID_MIGRATION_MAP := map[
    "tyrum.ios.location.get-current" := ["tyrum.location.get"],
    "tyrum.ios.camera.capture-photo" := ["tyrum.camera.capture-photo"],
    "tyrum.ios.audio.record-clip" := ["tyrum.audio.record"],
    "tyrum.android.location.get-current" := ["tyrum.location.get"],
    "tyrum.android.camera.capture-photo" := ["tyrum.camera.capture-photo"],
    "tyrum.android.audio.record-clip" := ["tyrum.audio.record"],
    "tyrum.browser.geolocation.get" := ["tyrum.location.get"],
    "tyrum.browser.camera.capture-photo" := ["tyrum.camera.capture-photo"],
    "tyrum.browser.microphone.record" := ["tyrum.audio.record"],
    "tyrum.playwright" := BROWSER_AUTOMATION_CAPABILITY_IDS]

  /** Umbrella ids and the platform-specific ids they split into. */
  const LEGACY_UMBRELLA_TO_DESCRIPTOR_IDS := map[
    "tyrum.ios" := ["tyrum.ios.location.get-current", "tyrum.ios.camera.capture-photo", "tyrum.ios.audio.record-clip"],
    "tyrum.android" :=
      ["tyrum.android.location.get-current", "tyrum.android.camera.capture-photo", "tyrum.android.audio.record-clip"],
    "tyrum.desktop" := DESKTOP_CAPABILITY_IDS,
    "tyrum.browser" :=
      ["tyrum.browser.geolocation.get", "tyrum.browser.camera.capture-photo", "tyrum.browser.microphone.record"]]

  /** The replacements of a deprecated id; a canonical id stands for itself. */
  function MigrateId(id: string): seq<string> {
    if id in LEGACY_ID_MIGRATION_MAP then LEGACY_ID_MIGRATION_MAP[id] else [id]
  }

  function MigrateAll(ids: seq<string>): seq<string> {
    if ids == [] then [] else MigrateId(ids[0]) + MigrateAll(ids[1..])
  }

  function ExpandId(id: string): seq<string> {
    if id in LEGACY_UMBRELLA_TO_DESCRIPTOR_IDS then MigrateAll(LEGACY_UMBRELLA_TO_DESCRIPTOR_IDS[id]) else MigrateId(id)
  }

  // ---------- The tables settle: no replacement is itself deprecated ----------

  /** What tells the keys of both tables from canonical ids. */
  predicate LooksDeprecated(id: string) {
    || |id| <= 13
    || id[6] == 'i' || id[6] == 'p' || (id[6] == 'a' && id[7] == 'n')
    || (|id| > 15 && id[6] == 'b' && (id[14] == 'g' || id[14] == 'm' || (id[14] == 'c' && id[15] == 'a')))
  }

  predicate Canonical(id: string) {
    id in SENSOR_CAPABILITY_IDS || id in DESKTOP_CAPABILITY_IDS || id in BROWSER_AUTOMATION_CAPABILITY_IDS
  }

  lemma MigratedIdsLookDeprecated(id: string)
    requires id in LEGACY_ID_MIGRATION_MAP
    ensures LooksDeprecated(id)
  {
    hide BROWSER_AUTOMATION_CAPABILITY_IDS, DESKTOP_CAPABILITY_IDS;
  }

  lemma UmbrellaIdsLookDeprecated(id: string)
    requires id in LEGACY_UMBRELLA_TO_DESCRIPTOR_IDS
    ensures LooksDeprecated(id)
  {
    hide BROWSER_AUTOMATION_CAPABILITY_IDS, DESKTOP_CAPABILITY_IDS;
  }

  lemma CanonicalIdsDoNot()
    ensures forall i :: 0 <= i < |SENSOR_CAPABILITY_IDS| ==> !LooksDeprecated(SENSOR_CAPABILITY_IDS[i])
    ensures forall i :: 0 <= i < |DESKTOP_CAPABILITY_IDS| ==> !LooksDeprecated(DESKTOP_CAPABILITY_IDS[i])
  {
  }

  lemma BrowserIdsDoNot()
    ensures forall i :: 0 <= i < |BROWSER_AUTOMATION_CAPABILITY_IDS| ==>
      !LooksDeprecated(BROWSER_AUTOMATION_CAPABILITY_IDS[i])
  {
  }

  /** No canonical id is a key of either table. */
  lemma CanonicalSettles(e: string)
    requires Canonical(e)
    ensures ExpandId(e) == [e]
  {
    hide LooksDeprecated;
    CanonicalIdsDoNot();
    BrowserIdsDoNot();
    if e in LEGACY_ID_MIGRATION_MAP {
      MigratedIdsLookDeprecated(e);
    } else if e in LEGACY_UMBRELLA_TO_DESCRIPTOR_IDS {
      UmbrellaIdsLookDeprecated(e);
    }
  }

  lemma MigrationsAreCanonical(id: string)
    requires id in LEGACY_ID_MIGRATION_MAP
    ensures forall e :: e in LEGACY_ID_MIGRATION_MAP[id] ==> Canonical(e)
  {
  }

  lemma SplitsAreKnown(id: string)
    requires id in LEGACY_UMBRELLA_TO_DESCRIPTOR_IDS
    ensures forall e :: e in LEGACY_UMBRELLA_TO_DESCRIPTOR_IDS[id] ==> e in LEGACY_ID_MIGRATION_MAP || Canonical(e)
  {
  }

  lemma {:induction false} MigrateAllCanonical(ids: seq<string>)
    requires forall id :: id in ids ==> id in LEGACY_ID_MIGRATION_MAP || Canonical(id)
    ensures forall e :: e in MigrateAll(ids) ==> Canonical(e)
  {
    hide MigrateId, Canonical;
    if ids != [] {
      MigrateIdCanonical(ids[0]);
      MigrateAllCanonical(ids[1..]);
    }
  }

  lemma MigrateIdCanonical(id: string)
    requires id in LEGACY_ID_MIGRATION_MAP || Canonical(id)
    ensures forall e :: e in MigrateId(id) ==> Canonical(e)
  {
    hide Canonical;
    if id in LEGACY_ID_MIGRATION_MAP {
      MigrationsAreCanonical(id);
    }
  }

  /** Expansion yields canonical ids only, unless the id is already settled. */
  lemma ExpandsToCanonical(id: string, e: string)
    requires e in ExpandId(id)
    ensures Canonical(e) || ExpandId(id) == [id]
  {
    hide Canonical, MigrateAll;
    if id in LEGACY_UMBRELLA_TO_DESCRIPTOR_IDS {
      SplitsAreKnown(id);
      MigrateAllCanonical(LEGACY_UMBRELLA_TO_DESCRIPTOR_IDS[id]);
    } else if id in LEGACY_ID_MIGRATION_MAP {
      MigrationsAreCanonical(id);
    }
  }

  lemma ExpansionSettles()
    ensures Settling(ExpandId)
  {
    hide ExpandId, Canonical;
    forall id, e | e in ExpandId(id) ensures ExpandId(e) == [e] {
      ExpandsToCanonical(id, e);
      if Canonical(e) {
        CanonicalSettles(e);
      }
    }
  }

  // ---------- What the tables say ----------

  /** An id that is no umbrella stands for its replacements if it has any, and else for itself. */
  lemma PlainExpansion(id: string)
    requires id !in LEGACY_UMBRELLA_TO_DESCRIPTOR_IDS
    ensures ExpandId(id) == if id in LEGACY_ID_MIGRATION_MAP then LEGACY_ID_MIGRATION_MAP[id] else [id]
  {
    hide LEGACY_UMBRELLA_TO_DESCRIPTOR_IDS, LEGACY_ID_MIGRATION_MAP;
  }

  /** The umbrella of a mobile platform or of the browser stands for the three sensors. */
  lemma SensorUmbrellas()
    ensures ExpandId("tyrum.ios") == SENSOR_CAPABILITY_IDS
    ensures ExpandId("tyrum.android") == SENSOR_CAPABILITY_IDS
    ensures ExpandId("tyrum.browser") == SENSOR_CAPABILITY_IDS
  {
    hide BROWSER_AUTOMATION_CAPABILITY_IDS, DESKTOP_CAPABILITY_IDS;
    MigrateThree("tyrum.ios.location.get-current", "tyrum.ios.camera.capture-photo", "tyrum.ios.audio.record-clip");
  }

  /** That of the desktop stands for its actions. */
  lemma DesktopUmbrella()
    ensures ExpandId("tyrum.desktop") == DESKTOP_CAPABILITY_IDS
  {
    hide LooksDeprecated, LEGACY_ID_MIGRATION_MAP, MigrateAll;
    assert LEGACY_UMBRELLA_TO_DESCRIPTOR_IDS["tyrum.desktop"] == DESKTOP_CAPABILITY_IDS;
    CanonicalIdsDoNot();
    forall e | e in DESKTOP_CAPABILITY_IDS ensures e !in LEGACY_ID_MIGRATION_MAP {
      if e in LEGACY_ID_MIGRATION_MAP {
        MigratedIdsLookDeprecated(e);
      }
    }
    MigratingNothing(DESKTOP_CAPABILITY_IDS);
  }

  lemma {:induction false} MigratingNothing(ids: seq<string>)
    requires forall id :: id in ids ==> id !in LEGACY_ID_MIGRATION_MAP
    ensures MigrateAll(ids) == ids
  {
    hide LEGACY_ID_MIGRATION_MAP;
    if ids != [] {
      MigratingNothing(ids[1..]);
      assert ids == [ids[0]] + ids[1..];
    }
  }

  lemma MigrateThree(a: string, b: string, c: string)
    ensures MigrateAll([a, b, c]) == MigrateId(a) + MigrateId(b) + MigrateId(c)
  {
    hide MigrateId;
    var three, two, one := [a, b, c], [b, c], [c];
    assert three[1..] == two && two[1..] == one && one[1..] == [];
    assert MigrateAll(one) == MigrateId(c) + [] == MigrateId(c);
    assert MigrateAll(two) == MigrateId(b) + MigrateId(c);
    assert MigrateId(a) + (MigrateId(b) + MigrateId(c)) == MigrateId(a) + MigrateId(b) + MigrateId(c);
  }

  // ---------- Normalising descriptors ----------

  /** A descriptor: its id, with its version as payload. */
  type Descriptor = Item<string>

  /** Fills a map keyed by id while going through the expansion of every descriptor. */
  method NormalizeCapabilityDescriptors(descriptors: seq<Descriptor>) returns (r: seq<Descriptor>)
    ensures r == Normal(ExpandId, descriptors)
  {
    hide ExpandId, Collect, Expanded, Put, Stamp;
    var normalized: OrderedMap<string> := Empty();
    assert normalized == Collect(Empty(), Expanded(ExpandId, descriptors[..0])) by {
      NothingCollected(ExpandId, descriptors);
    }
    for i := 0 to |descriptors|
      invariant normalized == Collect(Empty(), Expanded(ExpandId, descriptors[..i]))
    {
      var descriptor := descriptors[i];
      var expandedIds := ExpandId(descriptor.id);
      ghost var before, more := Expanded(ExpandId, descriptors[..i]), Stamp(expandedIds, descriptor.payload);
      CollectEnds(Empty(), before, more);
      for j := 0 to |expandedIds|
        invariant normalized == Collect(Empty(), before + more[..j])
      {
        CollectStep(Empty(), before, more, j);
        normalized := Put(normalized, expandedIds[j], descriptor.payload);
      }
      ExpandedStep(ExpandId, descriptors, i);
    }
    assert descriptors[..|descriptors|] == descriptors;
    r := Listing(normalized);
  }

  /** The result has distinct, fully migrated ids in order of first occurrence, each with its last-seen version. */
  lemma NormalizedDescriptors(descriptors: seq<Descriptor>)
    ensures var all, r := Expanded(ExpandId, descriptors), Normal(ExpandId, descriptors);
      && (forall i, j :: 0 <= i < j < |r| ==> r[i].id != r[j].id && FirstIndex(all, r[i].id) < FirstIndex(all, r[j].id))
      && (forall i :: 0 <= i < |r| ==>
        LastIndex(all, r[i].id) >= 0 && r[i].payload == all[LastIndex(all, r[i].id)].payload)
      && (forall k :: LastIndex(all, k) >= 0 ==> exists i :: 0 <= i < |r| && r[i].id == k)
      && (forall i :: 0 <= i < |r| ==> ExpandId(r[i].id) == [r[i].id])
  {
    hide ExpandId;
    ExpansionSettles();
    NormalMeaning(ExpandId, descriptors);
  }

  /** An id is in the result exactly if some descriptor stands for it, with the version of such a descriptor. */
  lemma DescriptorsMeaning(descriptors: seq<Descriptor>, id: string)
    ensures var r := Normal(ExpandId, descriptors);
      (exists e :: e in r && e.id == id) <==> exists i :: 0 <= i < |descriptors| && id in ExpandId(descriptors[i].id)
    ensures forall e :: e in Normal(ExpandId, descriptors) ==> ComesFrom(ExpandId, descriptors, e)
  {
    hide ExpandId, Expanded, Normal, FirstIndex, LastIndex;
    var all, r := Expanded(ExpandId, descriptors), Normal(ExpandId, descriptors);
    NormalizedDescriptors(descriptors);
    ExpandedMembers(ExpandId, descriptors);
    forall e | e in r ensures ComesFrom(ExpandId, descriptors, e) {
      var i :| 0 <= i < |r| && r[i] == e;
      assert all[LastIndex(all, e.id)] in all;
    }
    if i :| 0 <= i < |descriptors| && id in ExpandId(descriptors[i].id) {
      assert ComesFrom(ExpandId, descriptors, Item(id, descriptors[i].payload));
      assert Item(id, descriptors[i].payload) in all;
      assert LastIndex(all, id) >= 0;
      var j :| 0 <= j < |r| && r[j].id == id;
      assert r[j] in r;
    }
  }

  /** Normalising is idempotent, and normalising either part of a concatenation first does not matter. */
  lemma NormalizationLaws(a: seq<Descriptor>, b: seq<Descriptor>)
    ensures Normal(ExpandId, Normal(ExpandId, a)) == Normal(ExpandId, a)
    ensures Normal(ExpandId, Normal(ExpandId, a) + b) == Normal(ExpandId, a + b)
    ensures Normal(ExpandId, a + Normal(ExpandId, b)) == Normal(ExpandId, a + b)
  {
    hide ExpandId;
    ExpansionSettles();
    NormalIsIdempotent(ExpandId, a);
    NormalOfConcat(ExpandId, a, b);
  }
}
