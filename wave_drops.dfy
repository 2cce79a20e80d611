/** The container "drop" matrix of the single-wave export: for every palette or
    schuette and every market, how many distinct minutes saw a submission of one of
    that container's products there. */
module WaveDrops {
  import opened Common
  import opened Records
  import opened WaveItems

  /** product id -> container id, a later product overwriting an earlier one. */
  function ParentLinks(products: seq<ContainerProduct>): map<Id, Id>
  {
    ToMap(seq(|products|, i requires 0 <= i < |products| => (products[i].id, products[i].containerId)))
  }

  /** The container a submission counts for: palette submissions look their product up
      among the palette products, schuette submissions among the schuette products;
      other submissions, unknown products and an empty container id count for none. */
  function ParentOf(s: WaveSubmission, paletteLinks: map<Id, Id>, schuetteLinks: map<Id, Id>): (p: Option<Id>)
    ensures p.Some? ==> p.value != "" && IsContainerProduct(s.itemType)
    ensures p.Some? && s.itemType == Palette ==> s.itemId in paletteLinks && p.value == paletteLinks[s.itemId]
    ensures p.Some? && s.itemType == Schuette ==> s.itemId in schuetteLinks && p.value == schuetteLinks[s.itemId]
    ensures p.None? && IsContainerProduct(s.itemType) ==>
              var links := if s.itemType == Palette then paletteLinks else schuetteLinks;
              s.itemId !in links || links[s.itemId] == ""
  {
    var links := if s.itemType == Palette then paletteLinks else schuetteLinks;
    if IsContainerProduct(s.itemType) && s.itemId in links && links[s.itemId] != "" then Some(links[s.itemId])
    else None
  }

  /** The `${minute}|${parentId}` group key. */
  function DropKey(minute: string, parentId: Id): string
  {
    minute + "|" + parentId
  }

  /** container id -> market id -> the set of group keys seen (`containerCounts`). */
  type Drops = map<Id, map<Id, set<string>>>

  function AddDrop(d: Drops, parent: Id, market: Id, key: string): Drops
  {
    var byMarket := GetOr(d, parent, map[]);
    d[parent := byMarket[market := GetOr(byMarket, market, {}) + {key}]]
  }

  function DropsOf(subs: seq<WaveSubmission>, pl: map<Id, Id>, sl: map<Id, Id>): Drops
  {
    if subs == [] then map[]
    else
      var s := subs[|subs| - 1];
      var d := DropsOf(subs[..|subs| - 1], pl, sl);
      match ParentOf(s, pl, sl)
      case None => d
      case Some(p) => AddDrop(d, p, s.marketId, DropKey(s.minute, p))
  }

  /** The minutes at which a container's products were submitted at a market. */
  function Minutes(subs: seq<WaveSubmission>, pl: map<Id, Id>, sl: map<Id, Id>, parent: Id, market: Id): set<string>
  {
    if subs == [] then {}
    else
      var s := subs[|subs| - 1];
      Minutes(subs[..|subs| - 1], pl, sl, parent, market)
        + (if ParentOf(s, pl, sl) == Some(parent) && s.marketId == market then {s.minute} else {})
  }

  /** Whether some submission counts for this container at this market. */
  predicate Dropped(subs: seq<WaveSubmission>, pl: map<Id, Id>, sl: map<Id, Id>, parent: Id, market: Id)
  {
    exists i :: 0 <= i < |subs| && ParentOf(subs[i], pl, sl) == Some(parent) && subs[i].marketId == market
  }

  /** The group keys of one container are its minutes, each tagged with the container. */
  function Tagged(minutes: set<string>, parent: Id): set<string>
  {
    set m | m in minutes :: DropKey(m, parent)
  }

  /** Extending the submissions by one: a container was dropped at a market after the
      extension exactly when it was before or the new submission counts for it there. */
  lemma DroppedSnoc(subs: seq<WaveSubmission>, pl: map<Id, Id>, sl: map<Id, Id>, parent: Id, market: Id)
    requires subs != []
    ensures var s := subs[|subs| - 1];
            Dropped(subs, pl, sl, parent, market) <==>
              Dropped(subs[..|subs| - 1], pl, sl, parent, market) || (ParentOf(s, pl, sl) == Some(parent) && s.marketId == market)
  {
    var prefix := subs[..|subs| - 1];
    var s := subs[|subs| - 1];
    assert forall i :: 0 <= i < |prefix| ==> prefix[i] == subs[i];
    if Dropped(subs, pl, sl, parent, market) && !(ParentOf(s, pl, sl) == Some(parent) && s.marketId == market) {
      var i :| 0 <= i < |subs| && ParentOf(subs[i], pl, sl) == Some(parent) && subs[i].marketId == market;
      assert i < |prefix|;
    }
  }

  /** Nothing dropped, no minutes. */
  lemma {:induction false} MinutesEmpty(subs: seq<WaveSubmission>, pl: map<Id, Id>, sl: map<Id, Id>, parent: Id, market: Id)
    requires !Dropped(subs, pl, sl, parent, market)
    ensures Minutes(subs, pl, sl, parent, market) == {}
  {
    if subs != [] {
      DroppedSnoc(subs, pl, sl, parent, market);
      MinutesEmpty(subs[..|subs| - 1], pl, sl, parent, market);
    }
  }

  /** `containerCounts` has a set for a container and a market exactly when one of the
      container's products was submitted at the market. */
  lemma {:induction false} DropsPresent(subs: seq<WaveSubmission>, pl: map<Id, Id>, sl: map<Id, Id>, parent: Id, market: Id)
    ensures var d := DropsOf(subs, pl, sl);
            parent in d && market in d[parent] <==> Dropped(subs, pl, sl, parent, market)
  {
    if subs != [] {
      DropsPresent(subs[..|subs| - 1], pl, sl, parent, market);
      DroppedSnoc(subs, pl, sl, parent, market);
    }
  }

  /** A set in `containerCounts` holds the keys of the minutes at which the
      container's products were submitted at the market. */
  lemma {:induction false} DropsCell(subs: seq<WaveSubmission>, pl: map<Id, Id>, sl: map<Id, Id>, parent: Id, market: Id)
    ensures var d := DropsOf(subs, pl, sl);
            parent in d && market in d[parent] ==> d[parent][market] == Tagged(Minutes(subs, pl, sl, parent, market), parent)
  {
    if subs != [] {
      var prefix := subs[..|subs| - 1];
      var s := subs[|subs| - 1];
      DropsCell(prefix, pl, sl, parent, market);
      var before := Minutes(prefix, pl, sl, parent, market);
      if ParentOf(s, pl, sl) == Some(parent) && s.marketId == market {
        var d := DropsOf(prefix, pl, sl);
        if !(parent in d && market in d[parent]) {
          DropsPresent(prefix, pl, sl, parent, market);
          MinutesEmpty(prefix, pl, sl, parent, market);
        }
        assert Tagged(before + {s.minute}, parent) == Tagged(before, parent) + {DropKey(s.minute, parent)};
      }
    }
  }

  /** Both facts about `containerCounts` together. */
  lemma DropsAt(subs: seq<WaveSubmission>, pl: map<Id, Id>, sl: map<Id, Id>, parent: Id, market: Id)
    ensures var d := DropsOf(subs, pl, sl);
            parent in d && market in d[parent] <==> Dropped(subs, pl, sl, parent, market)
    ensures var d := DropsOf(subs, pl, sl);
            parent in d && market in d[parent] ==> d[parent][market] == Tagged(Minutes(subs, pl, sl, parent, market), parent)
  {
    DropsPresent(subs, pl, sl, parent, market);
    DropsCell(subs, pl, sl, parent, market);
  }

  /** Two keys of one container are equal only when their minutes are. */
  lemma DropKeyInjective(a: string, b: string, parent: Id)
    requires DropKey(a, parent) == DropKey(b, parent)
    ensures a == b
  {
    var ka, kb := DropKey(a, parent), DropKey(b, parent);
    assert |a| == |b|;
    assert a == ka[..|a|] && b == kb[..|b|];
  }

  /** Tagging loses no minute: there are as many keys as minutes. */
  lemma {:induction false} TaggedSize(minutes: set<string>, parent: Id)
    ensures |Tagged(minutes, parent)| == |minutes|
    decreases |minutes|
  {
    if minutes != {} {
      var m :| m in minutes;
      var rest := minutes - {m};
      TaggedSize(rest, parent);
      assert Tagged(minutes, parent) == Tagged(rest, parent) + {DropKey(m, parent)};
      assert DropKey(m, parent) !in Tagged(rest, parent) by {
        if DropKey(m, parent) in Tagged(rest, parent) {
          var m' :| m' in rest && DropKey(m', parent) == DropKey(m, parent);
          DropKeyInjective(m', m, parent);
        }
      }
    }
  }

  /** `parentMatrix`: the number of keys per container and market. */
  function Sizes(d: Drops): map<Id, map<Id, int>>
  {
    map p | p in d :: map m | m in d[p] :: |d[p][m]|
  }

  /** The drop matrix as the export returns it: computed only when the wave has palette
      or schuette products, else empty. */
  function ParentMatrix(subs: seq<WaveSubmission>, pp: seq<ContainerProduct>, sp: seq<ContainerProduct>)
    : (pm: map<Id, map<Id, int>>)
    ensures |pp| == 0 && |sp| == 0 ==> pm == map[]
  {
    if |pp| > 0 || |sp| > 0 then Sizes(DropsOf(subs, ParentLinks(pp), ParentLinks(sp))) else map[]
  }

  /** With container products, a container and market have a cell exactly when one of
      the container's products was submitted there, and the cell counts the distinct
      minutes at which that happened. */
  lemma DropCounts(subs: seq<WaveSubmission>, pp: seq<ContainerProduct>, sp: seq<ContainerProduct>, p: Id, m: Id)
    requires |pp| > 0 || |sp| > 0
    ensures var pm := ParentMatrix(subs, pp, sp);
            var pl, sl := ParentLinks(pp), ParentLinks(sp);
            (p in pm && m in pm[p] <==> Dropped(subs, pl, sl, p, m)) &&
            (p in pm && m in pm[p] ==> pm[p][m] == |Minutes(subs, pl, sl, p, m)|)
  {
    var pl, sl := ParentLinks(pp), ParentLinks(sp);
    DropsAt(subs, pl, sl, p, m);
    if Dropped(subs, pl, sl, p, m) {
      TaggedSize(Minutes(subs, pl, sl, p, m), p);
    }
  }

  /** `if (!containerCounts.has(p)) ...; if (!marketMap.has(m)) ...; set.add(key)`. */
  method AddDropKey(d: Drops, parent: Id, market: Id, key: string) returns (d': Drops)
    ensures d' == AddDrop(d, parent, market, key)
  {
    var byMarket := if parent in d then d[parent] else map[];
    var keys := if market in byMarket then byMarket[market] else {};
    d' := d[parent := byMarket[market := keys + {key}]];
  }

  /** src/utils/exportTransformers.ts:1034-1057; the final `forEach` copy into
      `parentMatrix` is the `Sizes` comprehension. */
  method CountDrops(subs: seq<WaveSubmission>, pp: seq<ContainerProduct>, sp: seq<ContainerProduct>)
    returns (parentMatrix: map<Id, map<Id, int>>)
    ensures parentMatrix == ParentMatrix(subs, pp, sp)
  {
    parentMatrix := map[];
    if |pp| > 0 || |sp| > 0 {
      var pl, sl := ParentLinks(pp), ParentLinks(sp);
      var counts: Drops := map[];
      for i := 0 to |subs|
        invariant counts == DropsOf(subs[..i], pl, sl)
      {
        assert subs[..i + 1][..i] == subs[..i];
        var s := subs[i];
        var parent := ParentOf(s, pl, sl);
        if parent.Some? {
          counts := AddDropKey(counts, parent.value, s.marketId, DropKey(s.minute, parent.value));
        }
      }
      assert subs[..|subs|] == subs;
      parentMatrix := Sizes(counts);
    }
  }
}
