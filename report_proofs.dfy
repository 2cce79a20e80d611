/** What the submission report promises about its rows: a group key names exactly one
    (minute, market, container) triple, every submission lands in exactly one row,
    a parent row is the sum of its children and a compact row the sum of its lines. */
module ReportProofs {
  import opened Common
  import opened Records
  import opened SubmissionReport

  // ---------------------------------------------------------------------------
  // The group key
  // ---------------------------------------------------------------------------

  predicate PipeFree(s: string)
  {
    '|' !in s
  }

  /** In `a + "|" + r` with `a` free of '|', the first '|' is at position |a|. */
  lemma FirstBar(a: string, r: string)
    requires PipeFree(a)
    ensures (a + "|" + r)[|a|] == '|'
    ensures forall i :: 0 <= i < |a| ==> (a + "|" + r)[i] != '|'
  {
    forall i | 0 <= i < |a| ensures (a + "|" + r)[i] != '|' {
      assert (a + "|" + r)[i] == a[i];
    }
  }

  /** Two texts that each end their first part at the first '|' agree on both parts. */
  lemma {:induction false} SplitAtBar(a: string, r: string, b: string, t: string)
    requires PipeFree(a) && PipeFree(b)
    requires a + "|" + r == b + "|" + t
    ensures a == b && r == t
  {
    var whole := a + "|" + r;
    FirstBar(a, r);
    FirstBar(b, t);
    assert |a| == |b|;
    assert a == whole[..|a|];
    assert b == (b + "|" + t)[..|b|];
    assert r == whole[|a| + 1..];
    assert t == (b + "|" + t)[|b| + 1..];
  }

  /** The key `minute|market|container` determines its three parts as long as the
      minute and the market id contain no '|' (an ISO minute never does; the
      container name may). */
  lemma KeyTextInjective(m1: string, k1: string, c1: string, m2: string, k2: string, c2: string)
    requires PipeFree(m1) && PipeFree(m2) && PipeFree(k1) && PipeFree(k2)
    requires KeyText(m1, k1, c1) == KeyText(m2, k2, c2)
    ensures m1 == m2 && k1 == k2 && c1 == c2
  {
    assert KeyText(m1, k1, c1) == m1 + "|" + (k1 + "|" + c1);
    assert KeyText(m2, k2, c2) == m2 + "|" + (k2 + "|" + c2);
    SplitAtBar(m1, k1 + "|" + c1, m2, k2 + "|" + c2);
    SplitAtBar(k1, c1, k2, c2);
  }

  /** All members of a group are palette or schuette submissions entered in the same
      minute at the same market for products of the same container. */
  lemma GroupMembersAgree(subs: seq<Submission>, items: map<Id, ItemInfo>, key: string, s1: Submission, s2: Submission)
    requires forall s | s in subs :: PipeFree(s.minute) && PipeFree(s.marketId)
    requires s1 in Members(subs, items, key) && s2 in Members(subs, items, key)
    ensures IsContainerProduct(s1.itemType) && IsContainerProduct(s2.itemType)
    ensures s1.minute == s2.minute && s1.marketId == s2.marketId
    ensures ContainerOf(s1, items) == ContainerOf(s2, items) != ""
  {
    KeyTextInjective(s1.minute, s1.marketId, items[s1.itemId].container,
                     s2.minute, s2.marketId, items[s2.itemId].container);
  }

  // ---------------------------------------------------------------------------
  // Every submission lands in exactly one row
  // ---------------------------------------------------------------------------

  predicate DistinctIds(subs: seq<Submission>)
  {
    forall a, b :: 0 <= a < b < |subs| ==> subs[a].id != subs[b].id
  }

  /** The ids a unit accounts for. */
  function UnitIds(u: Unit): seq<Id>
  {
    match u
    case Single(s) => [s.id]
    case Group(_, _, g) => IdSeq(g)
  }

  function Covered(us: seq<Unit>): seq<Id>
  {
    if us == [] then [] else UnitIds(us[0]) + Covered(us[1..])
  }

  /** The submission ids of the rows that stand for submissions: every row but the
      parent row of an expanded group, which repeats the ids of its children. */
  function RowsCovered(rows: seq<ReportRow>): seq<Id>
  {
    if rows == [] then [] else (if rows[0].kind == Parent then [] else rows[0].ids) + RowsCovered(rows[1..])
  }

  lemma {:induction false} RowsCoveredAppend(a: seq<ReportRow>, b: seq<ReportRow>)
    ensures RowsCovered(a + b) == RowsCovered(a) + RowsCovered(b)
  {
    if a == [] {
      assert a + b == b;
    } else {
      assert (a + b)[1..] == a[1..] + b;
      RowsCoveredAppend(a[1..], b);
    }
  }

  lemma {:induction false} ChildRowsCovered(g: seq<Submission>, key: string, ctx: Lookups)
    ensures RowsCovered(ChildRows(g, key, ctx)) == IdSeq(g)
  {
    if g != [] {
      assert ChildRows(g, key, ctx)[1..] == ChildRows(g[1..], key, ctx);
      ChildRowsCovered(g[1..], key, ctx);
      assert IdSeq(g) == [g[0].id] + IdSeq(g[1..]);
    }
  }

  lemma RowsCoveredSingle(row: ReportRow)
    ensures RowsCovered([row]) == if row.kind == Parent then [] else row.ids
  {
    assert [row][1..] == [];
  }

  /** The rows of one unit stand for exactly the unit's ids. */
  lemma UnitCovered(u: Unit, ctx: Lookups, expand: bool)
    ensures RowsCovered(RenderUnit(u, ctx, expand)) == UnitIds(u)
  {
    match u
    case Single(s) =>
      var row := PlainRowOf(s, ctx);
      assert row.kind == Plain && row.ids == [s.id];
      RowsCoveredSingle(row);
    case Group(k, a, g) =>
      if expand {
        var parent := ParentRowOf(a, k, g, ctx);
        assert parent.kind == Parent;
        RowsCoveredSingle(parent);
        RowsCoveredAppend([parent], ChildRows(g, k, ctx));
        ChildRowsCovered(g, k, ctx);
      } else {
        var row := CompactRowOf(a, g, ctx);
        assert row.kind.Multiline? && row.ids == IdSeq(g);
        RowsCoveredSingle(row);
      }
  }

  /** Rendering keeps the ids each unit accounts for, in order. */
  lemma {:induction false} RenderCovered(us: seq<Unit>, ctx: Lookups, expand: bool)
    ensures RowsCovered(RenderAll(us, ctx, expand)) == Covered(us)
  {
    if us != [] {
      RowsCoveredAppend(RenderUnit(us[0], ctx, expand), RenderAll(us[1..], ctx, expand));
      RenderCovered(us[1..], ctx, expand);
      UnitCovered(us[0], ctx, expand);
    }
  }

  lemma {:induction false} CoveredCons(u: Unit, us: seq<Unit>)
    ensures Covered([u] + us) == UnitIds(u) + Covered(us)
  {
    assert ([u] + us)[1..] == us;
  }

  lemma {:induction false} IdSeqAppend(a: seq<Submission>, b: seq<Submission>)
    ensures IdSeq(a + b) == IdSeq(a) + IdSeq(b)
  {
  }

  /** A group's ids are taken from the submissions' ids. */
  lemma {:induction false} MembersIdsIncluded(subs: seq<Submission>, items: map<Id, ItemInfo>, key: string)
    ensures multiset(IdSeq(Members(subs, items, key))) <= multiset(IdSeq(subs))
  {
    if subs != [] {
      var prefix := subs[..|subs| - 1];
      var last := subs[|subs| - 1];
      MembersIdsIncluded(prefix, items, key);
      assert subs == prefix + [last];
      IdSeqAppend(prefix, [last]);
      IdSeqAppend(Members(prefix, items, key), if GroupKey(last, items) == Some(key) then [last] else []);
    }
  }

  /** In a sequence of distinct ids every id occurs at most once. */
  lemma {:induction false} AtMostOnce(xs: seq<Id>, x: Id)
    requires Distinct(xs)
    ensures multiset(xs)[x] == if x in xs then 1 else 0
  {
    if xs != [] {
      var rest := xs[1..];
      assert xs == [xs[0]] + rest;
      assert Distinct(rest) by {
        forall a, b | 0 <= a < b < |rest| ensures rest[a] != rest[b] {
          assert rest[a] == xs[a + 1] && rest[b] == xs[b + 1];
        }
      }
      AtMostOnce(rest, x);
      if xs[0] == x {
        forall j | 0 <= j < |rest| ensures rest[j] != x {
          assert rest[j] == xs[j + 1];
        }
      }
    }
  }

  lemma DistinctAtMostOnce(subs: seq<Submission>, x: Id)
    requires DistinctIds(subs)
    ensures multiset(IdSeq(subs))[x] <= 1
    ensures multiset(IdSeq(subs))[x] == 1 <==> exists j :: 0 <= j < |subs| && subs[j].id == x
  {
    var ids := IdSeq(subs);
    AtMostOnce(ids, x);
    if x in ids {
      var j :| 0 <= j < |ids| && ids[j] == x;
      assert subs[j].id == x;
    }
  }

  /** A submission has a group key that an earlier submission already has. */
  predicate EarlierKey(subs: seq<Submission>, items: map<Id, ItemInfo>, i: nat, key: string)
  {
    exists j :: 0 <= j < i && j < |subs| && GroupKey(subs[j], items) == Some(key)
  }

  /** What `processedIds` holds when the pass reaches submission `i`: every earlier
      submission, and exactly those later ones whose group was already emitted. */
  predicate PassInv(subs: seq<Submission>, items: map<Id, ItemInfo>, i: nat, processed: set<Id>)
  {
    i <= |subs| &&
    (forall j :: 0 <= j < i ==> subs[j].id in processed) &&
    (forall j :: i <= j < |subs| ==>
       (subs[j].id in processed <==>
          GroupKey(subs[j], items).Some? && EarlierKey(subs, items, i, GroupKey(subs[j], items).value)))
  }

  /** A submission at or after `i` whose id is not processed. */
  predicate Pending(subs: seq<Submission>, i: nat, processed: set<Id>, x: Id)
  {
    x !in processed && exists j :: i <= j < |subs| && subs[j].id == x
  }

  /** A submission of the group puts its id among the group's ids exactly once. */
  lemma MemberCountedOnce(subs: seq<Submission>, items: map<Id, ItemInfo>, key: string, j: nat)
    requires DistinctIds(subs) && j < |subs| && GroupKey(subs[j], items) == Some(key)
    ensures multiset(IdSeq(Members(subs, items, key)))[subs[j].id] == 1
  {
    var g := Members(subs, items, key);
    var ids := IdSeq(g);
    MembersIdsIncluded(subs, items, key);
    DistinctAtMostOnce(subs, subs[j].id);
    assert subs[j] in g;
    var m :| 0 <= m < |g| && g[m] == subs[j];
    assert ids[m] == subs[j].id;
    assert subs[j].id in multiset(ids);
  }

  /** An id no submission of the group has is not among the group's ids. */
  lemma NonMemberNotCounted(subs: seq<Submission>, items: map<Id, ItemInfo>, key: string, x: Id)
    requires !exists j :: 0 <= j < |subs| && subs[j].id == x && GroupKey(subs[j], items) == Some(key)
    ensures multiset(IdSeq(Members(subs, items, key)))[x] == 0
  {
    var g := Members(subs, items, key);
    var ids := IdSeq(g);
    forall m | 0 <= m < |g| ensures ids[m] != x {
      assert g[m] in g;
      var j :| 0 <= j < |subs| && subs[j] == g[m];
    }
    assert x !in ids;
  }

  /** How often a group's ids contain `x`: once if some submission with that id has
      the group's key, else never. */
  lemma MembersCount(subs: seq<Submission>, items: map<Id, ItemInfo>, key: string, x: Id)
    requires DistinctIds(subs)
    ensures multiset(IdSeq(Members(subs, items, key)))[x] ==
            if exists j :: 0 <= j < |subs| && subs[j].id == x && GroupKey(subs[j], items) == Some(key) then 1 else 0
  {
    if exists j :: 0 <= j < |subs| && subs[j].id == x && GroupKey(subs[j], items) == Some(key) {
      var j :| 0 <= j < |subs| && subs[j].id == x && GroupKey(subs[j], items) == Some(key);
      MemberCountedOnce(subs, items, key, j);
    } else {
      NonMemberNotCounted(subs, items, key, x);
    }
  }

  /** Passing over an already processed submission keeps the invariant. */
  lemma SkipKeepsInv(subs: seq<Submission>, items: map<Id, ItemInfo>, i: nat, processed: set<Id>)
    requires PassInv(subs, items, i, processed) && i < |subs| && subs[i].id in processed
    ensures PassInv(subs, items, i + 1, processed)
  {
    var k0 := GroupKey(subs[i], items).value;
    forall k' | EarlierKey(subs, items, i + 1, k') ensures EarlierKey(subs, items, i, k') {
      var j :| 0 <= j < i + 1 && j < |subs| && GroupKey(subs[j], items) == Some(k');
      if j == i {
        var j' :| 0 <= j' < i && j' < |subs| && GroupKey(subs[j'], items) == Some(k0);
      }
    }
  }

  /** Emitting an ungrouped submission and marking it keeps the invariant. */
  lemma SingleKeepsInv(subs: seq<Submission>, items: map<Id, ItemInfo>, i: nat, processed: set<Id>)
    requires DistinctIds(subs) && PassInv(subs, items, i, processed) && i < |subs|
    requires GroupKey(subs[i], items).None?
    ensures PassInv(subs, items, i + 1, processed + {subs[i].id})
  {
    forall k' | EarlierKey(subs, items, i + 1, k') ensures EarlierKey(subs, items, i, k') {
      var j :| 0 <= j < i + 1 && j < |subs| && GroupKey(subs[j], items) == Some(k');
    }
  }

  /** A later submission's id is among a group's ids exactly when it has the group's key. */
  lemma InGroupIds(subs: seq<Submission>, items: map<Id, ItemInfo>, k: string, j: nat)
    requires DistinctIds(subs) && j < |subs|
    ensures subs[j].id in IdSet(Members(subs, items, k)) <==> GroupKey(subs[j], items) == Some(k)
  {
    var g := Members(subs, items, k);
    if subs[j].id in IdSet(g) {
      var m :| m in g && m.id == subs[j].id;
      var j' :| 0 <= j' < |subs| && subs[j'] == m;
      assert j' == j;
    }
  }

  /** A submission after the one opening group `k` is processed after the group
      exactly when an earlier submission or the opening one shares its key. */
  lemma GroupKeepsInvAt(subs: seq<Submission>, items: map<Id, ItemInfo>, i: nat, processed: set<Id>, k: string, j: nat)
    requires DistinctIds(subs) && PassInv(subs, items, i, processed)
    requires i < j < |subs| && GroupKey(subs[i], items) == Some(k)
    ensures subs[j].id in processed + IdSet(Members(subs, items, k)) <==>
            GroupKey(subs[j], items).Some? && EarlierKey(subs, items, i + 1, GroupKey(subs[j], items).value)
  {
    InGroupIds(subs, items, k, j);
    var kj := GroupKey(subs[j], items);
    if kj.Some? && EarlierKey(subs, items, i + 1, kj.value) && !EarlierKey(subs, items, i, kj.value) {
      var j' :| 0 <= j' < i + 1 && j' < |subs| && GroupKey(subs[j'], items) == kj;
      assert j' == i;
    }
    if kj == Some(k) {
      assert EarlierKey(subs, items, i + 1, k);
    }
  }

  /** The group opened at `i` starts with a submission not processed before. */
  lemma GroupFirstPending(subs: seq<Submission>, items: map<Id, ItemInfo>, i: nat, processed: set<Id>, k: string)
    requires PassInv(subs, items, i, processed)
    requires i < |subs| && subs[i].id !in processed && GroupKey(subs[i], items) == Some(k)
    ensures !EarlierKey(subs, items, i, k)
    ensures Members(subs, items, k) != [] && Members(subs, items, k)[0].id !in processed
  {
    var g := Members(subs, items, k);
    assert subs[i] in g;
    assert g[0] in subs;
    var j0 :| 0 <= j0 < |subs| && subs[j0] == g[0];
  }

  /** Emitting a whole group at its first member and marking all members keeps the
      invariant. */
  lemma GroupKeepsInv(subs: seq<Submission>, items: map<Id, ItemInfo>, i: nat, processed: set<Id>, k: string)
    requires DistinctIds(subs) && PassInv(subs, items, i, processed)
    requires i < |subs| && subs[i].id !in processed && GroupKey(subs[i], items) == Some(k)
    ensures PassInv(subs, items, i + 1, processed + IdSet(Members(subs, items, k)))
  {
    var g := Members(subs, items, k);
    forall j | i + 1 <= j < |subs|
      ensures subs[j].id in processed + IdSet(g) <==>
              GroupKey(subs[j], items).Some? && EarlierKey(subs, items, i + 1, GroupKey(subs[j], items).value)
    {
      GroupKeepsInvAt(subs, items, i, processed, k, j);
    }
    assert subs[i] in g;
    assert subs[i].id in IdSet(g);
  }

  /** How often the pass from `i` covers `x`, against how often it should. */
  predicate CountsRight(subs: seq<Submission>, items: map<Id, ItemInfo>, i: nat, processed: set<Id>, x: Id)
    requires i <= |subs|
  {
    multiset(Covered(Units(subs, items, i, processed)))[x] == if Pending(subs, i, processed, x) then 1 else 0
  }

  /** The step of UnitsCount at a processed submission. */
  lemma SkipCount(subs: seq<Submission>, items: map<Id, ItemInfo>, i: nat, processed: set<Id>, x: Id)
    requires i < |subs| && subs[i].id in processed
    requires CountsRight(subs, items, i + 1, processed, x)
    ensures CountsRight(subs, items, i, processed, x)
  {
    assert Units(subs, items, i, processed) == Units(subs, items, i + 1, processed);
    assert Pending(subs, i, processed, x) ==> Pending(subs, i + 1, processed, x);
  }

  /** The step of UnitsCount at a submission with no group. */
  lemma SingleCount(subs: seq<Submission>, items: map<Id, ItemInfo>, i: nat, processed: set<Id>, x: Id)
    requires i < |subs| && subs[i].id !in processed && GroupKey(subs[i], items).None?
    requires CountsRight(subs, items, i + 1, processed + {subs[i].id}, x)
    ensures CountsRight(subs, items, i, processed, x)
  {
    var s := subs[i];
    var p' := processed + {s.id};
    assert Units(subs, items, i, processed) == [Single(s)] + Units(subs, items, i + 1, p');
    CoveredCons(Single(s), Units(subs, items, i + 1, p'));
    assert x != s.id && Pending(subs, i, processed, x) ==> Pending(subs, i + 1, p', x);
  }

  /** The pass from `i` on covers each pending id exactly once and nothing else. */
  lemma {:induction false} UnitsCount(subs: seq<Submission>, items: map<Id, ItemInfo>, i: nat, processed: set<Id>, x: Id)
    requires DistinctIds(subs) && PassInv(subs, items, i, processed)
    ensures CountsRight(subs, items, i, processed, x)
    decreases |subs| - i
  {
    if i == |subs| {
      assert Units(subs, items, i, processed) == [];
      assert !Pending(subs, i, processed, x);
    } else if subs[i].id in processed {
      SkipKeepsInv(subs, items, i, processed);
      UnitsCount(subs, items, i + 1, processed, x);
      SkipCount(subs, items, i, processed, x);
    } else if GroupKey(subs[i], items).None? {
      SingleKeepsInv(subs, items, i, processed);
      UnitsCount(subs, items, i + 1, processed + {subs[i].id}, x);
      SingleCount(subs, items, i, processed, x);
    } else {
      GroupStep(subs, items, i, processed, GroupKey(subs[i], items).value, x);
    }
  }

  /** The step of UnitsCount at a submission that opens a group. */
  lemma {:induction false} GroupStep(subs: seq<Submission>, items: map<Id, ItemInfo>, i: nat, processed: set<Id>, k: string, x: Id)
    requires DistinctIds(subs) && PassInv(subs, items, i, processed)
    requires i < |subs| && subs[i].id !in processed && GroupKey(subs[i], items) == Some(k)
    ensures CountsRight(subs, items, i, processed, x)
    decreases |subs| - i, 0
  {
    var s := subs[i];
    var g := Members(subs, items, k);
    var p' := processed + IdSet(g);
    GroupFirstPending(subs, items, i, processed, k);
    GroupKeepsInv(subs, items, i, processed, k);
    UnitsCount(subs, items, i + 1, p', x);
    assert Units(subs, items, i, processed) == [Group(k, s, g)] + Units(subs, items, i + 1, p');
    CoveredCons(Group(k, s, g), Units(subs, items, i + 1, p'));
    MembersCount(subs, items, k, x);
    GroupCountCases(subs, items, i, processed, k, x);
  }

  /** The id `x` is pending at `i` exactly once: in the group opened at `i`, or after it. */
  lemma GroupCountCases(subs: seq<Submission>, items: map<Id, ItemInfo>, i: nat, processed: set<Id>, k: string, x: Id)
    requires DistinctIds(subs) && PassInv(subs, items, i, processed)
    requires i < |subs| && subs[i].id !in processed && GroupKey(subs[i], items) == Some(k)
    requires !EarlierKey(subs, items, i, k)
    ensures var inGroup := exists j :: 0 <= j < |subs| && subs[j].id == x && GroupKey(subs[j], items) == Some(k);
            var p' := processed + IdSet(Members(subs, items, k));
            (if inGroup then 1 else 0) + (if Pending(subs, i + 1, p', x) then 1 else 0)
            == if Pending(subs, i, processed, x) then 1 else 0
  {
    var g := Members(subs, items, k);
    var p' := processed + IdSet(g);
    if exists j :: 0 <= j < |subs| && subs[j].id == x && GroupKey(subs[j], items) == Some(k) {
      var j :| 0 <= j < |subs| && subs[j].id == x && GroupKey(subs[j], items) == Some(k);
      InGroupIds(subs, items, k, j);
      assert j < i ==> EarlierKey(subs, items, i, k);
      assert Pending(subs, i, processed, x);
    } else {
      assert x !in IdSet(g);
      if Pending(subs, i, processed, x) {
        var j :| i <= j < |subs| && subs[j].id == x;
        assert j != i;
        assert Pending(subs, i + 1, p', x);
      }
    }
  }

  /** With distinct submission ids, every submission appears in exactly one row that
      stands for submissions (a plain row, a child row or a compact group row), and no
      other id appears: the `processedIds` guard neither drops nor repeats one. */
  lemma ExactlyOnce(subs: seq<Submission>, ctx: Lookups, expand: bool)
    requires DistinctIds(subs)
    ensures multiset(RowsCovered(ReportRows(subs, ctx, expand))) == multiset(IdSeq(subs))
  {
    RenderCovered(Units(subs, ctx.items, 0, {}), ctx, expand);
    forall x ensures multiset(Covered(Units(subs, ctx.items, 0, {})))[x] == multiset(IdSeq(subs))[x] {
      UnitsCount(subs, ctx.items, 0, {}, x);
      assert !Pending(subs, 0, {}, x) ==> forall j | 0 <= j < |subs| :: subs[j].id != x;
      DistinctAtMostOnce(subs, x);
    }
  }

  // ---------------------------------------------------------------------------
  // Group rows add up
  // ---------------------------------------------------------------------------

  function LineValues(g: seq<Submission>): seq<int>
  {
    seq(|g|, i requires 0 <= i < |g| => LineValue(g[i]))
  }

  function RowTotals(rows: seq<ReportRow>): seq<int>
  {
    seq(|rows|, i requires 0 <= i < |rows| => rows[i].totalValue)
  }

  function DetailTotals(details: seq<ProductDetail>): seq<int>
  {
    seq(|details|, i requires 0 <= i < |details| => details[i].totalValue)
  }

  /** The `reduce` over a group is the sum of its line values. */
  lemma {:induction false} GroupTotalIsSum(g: seq<Submission>)
    ensures GroupTotal(g) == Sum(LineValues(g))
  {
    if g != [] {
      var prefix := g[..|g| - 1];
      GroupTotalIsSum(prefix);
      assert LineValues(g) == LineValues(prefix) + [LineValue(g[|g| - 1])];
      SumAppend(LineValues(prefix), [LineValue(g[|g| - 1])]);
      assert Sum([LineValue(g[|g| - 1])]) == LineValue(g[|g| - 1]);
    }
  }

  /** An expanded group renders as its parent row followed by one child row per
      member, in member order; the parent stands for all members' ids, counts one
      unit and carries the sum of the children's totals as both unit and total value. */
  lemma ExpandedGroupRows(anchor: Submission, key: string, g: seq<Submission>, ctx: Lookups)
    ensures var rows := RenderUnit(Group(key, anchor, g), ctx, true);
            |rows| == |g| + 1 &&
            rows[0].kind == Parent && rows[0].ids == IdSeq(g) && rows[0].groupId == key &&
            rows[0].quantity == 1 && rows[0].valuePerUnit == rows[0].totalValue &&
            rows[0].totalValue == Sum(RowTotals(rows[1..])) &&
            rows[0].itemName == Text(ContainerOf(anchor, ctx.items)) &&
            forall i :: 0 <= i < |g| ==>
              rows[i + 1].kind == Child && rows[i + 1].ids == [g[i].id] && rows[i + 1].groupId == key &&
              rows[i + 1].quantity == g[i].quantity && rows[i + 1].valuePerUnit == g[i].valuePerUnit &&
              rows[i + 1].totalValue == g[i].quantity * g[i].valuePerUnit
  {
    var rows := RenderUnit(Group(key, anchor, g), ctx, true);
    assert rows[1..] == ChildRows(g, key, ctx);
    assert RowTotals(rows[1..]) == LineValues(g);
    GroupTotalIsSum(g);
  }

  /** One product line per member, copying the member's product, quantity and price. */
  lemma DetailLines(anchor: Submission, g: seq<Submission>, ctx: Lookups)
    ensures var details := Details(g, anchor, ctx);
            |details| == |g| &&
            forall i :: 0 <= i < |g| ==>
              details[i].productName == ProductName(g[i], ctx.items) &&
              details[i].quantity == g[i].quantity && details[i].valuePerUnit == g[i].valuePerUnit &&
              details[i].totalValue == g[i].quantity * g[i].valuePerUnit
  {
  }

  /** A compact group renders as a single row holding one product line per member,
      in member order; the row counts one unit and carries the sum of the lines'
      values as both unit and total value. */
  lemma CompactGroupRow(anchor: Submission, key: string, g: seq<Submission>, ctx: Lookups)
    ensures var rows := RenderUnit(Group(key, anchor, g), ctx, false);
            |rows| == 1 && rows[0].kind.Multiline? &&
            var row, details := rows[0], rows[0].kind.details;
            row.ids == IdSeq(g) && row.quantity == 1 && row.valuePerUnit == row.totalValue &&
            row.totalValue == Sum(DetailTotals(details)) &&
            row.itemName == ProductLines(details, row.totalValue) &&
            row.containerName == ContainerOf(anchor, ctx.items) &&
            |details| == |g| &&
            forall i :: 0 <= i < |g| ==>
              details[i].productName == ProductName(g[i], ctx.items) &&
              details[i].quantity == g[i].quantity && details[i].valuePerUnit == g[i].valuePerUnit &&
              details[i].totalValue == g[i].quantity * g[i].valuePerUnit
  {
    var details := Details(g, anchor, ctx);
    var row := CompactRowOf(anchor, g, ctx);
    assert RenderUnit(Group(key, anchor, g), ctx, false) == [row];
    assert row.kind.details == details && row.totalValue == GroupTotal(g);
    DetailLines(anchor, g, ctx);
    assert DetailTotals(details) == LineValues(g);
    GroupTotalIsSum(g);
  }
}
