/** When a promotion can still be accepted. A promotion needs main's closure rows
    to be a prefix of develop's. The sync check on develop looks at membership
    only, so the order in which a feature step copies main's rows decides. */
module RoadmapPromotion {
  import opened Prelude
  import opened RoadmapModel
  import opened RoadmapRules
  import opened RoadmapDelivery
  import opened RoadmapBranches

  /** `rows` meets entries of `table` in the table's own order. */
  ghost predicate InOrder<T(!new)>(rows: seq<T>, table: seq<T>) {
    forall i, j, a, b | 0 <= i < j < |rows| && 0 <= a < |table| && 0 <= b < |table| ::
      rows[i] == table[a] && rows[j] == table[b] ==> a < b
  }

  lemma {:induction false} OrderedRearrangement<T(!new)>(rows: seq<T>, table: seq<T>)
    requires NoDuplicates(rows) && NoDuplicates(table) && InOrder(rows, table)
    requires forall x :: x in rows <==> x in table
    ensures rows == table
    decreases |rows|
  {
    if table != [] {
      assert table[0] in rows;
    }
    if rows != [] {
      assert rows[0] in table && table[0] in rows;
      var a :| 0 <= a < |table| && table[a] == rows[0];
      var i :| 0 <= i < |rows| && rows[i] == table[0];
      assert a == 0;
      forall x
        ensures x in rows[1..] <==> x in table[1..]
      {
        assert x in rows <==> x == rows[0] || x in rows[1..];
        assert x in table <==> x == table[0] || x in table[1..];
      }
      OrderedRearrangement(rows[1..], table[1..]);
    }
  }

  lemma RowsUnique(t: TextRules, r: Roadmap)
    requires StructureOk(t, r)
    ensures NoDuplicates(r.mainEvidence)
  {
    UniqueIds(t, r);
    forall i, j | 0 <= i < j < |r.mainEvidence|
      ensures r.mainEvidence[i] != r.mainEvidence[j]
    {
      assert MainKeys(t, r.mainEvidence)[i] != MainKeys(t, r.mainEvidence)[j];
    }
  }

  function Rows(s: System): seq<MainRow>
    requires s.develops != []
  {
    s.Develop().mainEvidence
  }

  lemma TablesUnique(t: TextRules, s: System)
    requires Safe(t, s)
    ensures NoDuplicates(Rows(s)) && NoDuplicates(s.MainRows())
  {
    assert DocumentOk(t, Some(s.develops[|s.develops| - 1]));
    RowsUnique(t, s.Develop());
    if s.mains != [] {
      assert DocumentOk(t, Some(s.mains[|s.mains| - 1]));
      RowsUnique(t, s.mains[|s.mains| - 1]);
    }
  }

  /** What a feature step adds to develop's closure table, and what it must hold. */
  lemma AddedRows(t: TextRules, s: System, s': System, event: Event, trustedMain: Option<Roadmap>)
    requires Safe(t, s) && FeatureStep(t, s, s', event, trustedMain)
    ensures Safe(t, s') && Rows(s) <= Rows(s')
    ensures forall row | row in Rows(s')[|Rows(s)|..] ::
      trustedMain.Some? && row in trustedMain.value.mainEvidence
    ensures trustedMain.Some? ==>
      trustedMain.value.mainEvidence <= s.MainRows()
      && forall row | row in trustedMain.value.mainEvidence :: row in Rows(s')
  {
    FeatureStepSafe(t, s, s', event, trustedMain);
    var base, current := s.Develop(), s'.Develop();
    assert BranchStep(t, Develop, base, current);
    StepExtends(t, Develop, base, current);
    FeatureDone(t, base, current, trustedMain);
    if trustedMain.Some? {
      OlderMain(t, s, trustedMain.value);
    }
    TablesUnique(t, s');
    forall row | row in Rows(s')[|Rows(s)|..]
      ensures trustedMain.Some? && row in trustedMain.value.mainEvidence
    {
      TailIsNew(Rows(s), Rows(s'), row);
      FeatureRows(t, base, current, trustedMain, row);
    }
  }

  lemma TailIsNew<T>(p: seq<T>, s: seq<T>, x: T)
    requires p <= s && NoDuplicates(s) && x in s[|p|..]
    ensures x in s && x !in p
  {
    var j :| |p| <= j < |s| && s[j] == x;
    forall i | 0 <= i < |p|
      ensures p[i] != x
    {
      assert p[i] == s[i];
    }
  }

  /** Growing a prefix `p` of `m` by rows of another prefix `q` of `m`, all of them,
      in the order of `m`, gives the longer of the two prefixes. */
  lemma OrderedGrowth<T(!new)>(p: seq<T>, p': seq<T>, q: seq<T>, m: seq<T>)
    requires NoDuplicates(p') && NoDuplicates(m)
    requires p <= m && q <= m && p <= p'
    requires forall x | x in p'[|p|..] :: x in q
    requires forall x | x in q :: x in p'
    requires InOrder(p'[|p|..], m)
    ensures p' == if |p| < |q| then q else p
  {
    var added := p'[|p|..];
    assert p' == p + added;
    if |p| < |q| {
      var rest := q[|p|..];
      assert q == p + rest;
      forall x
        ensures x in added <==> x in rest
      {
        if x in added {
          TailIsNew(p, p', x);
        }
        if x in rest {
          assert NoDuplicates(q);
          TailIsNew(p, q, x);
        }
      }
      assert InOrder(added, rest) by {
        forall i, j, a, b | 0 <= i < j < |added| && 0 <= a < |rest| && 0 <= b < |rest|
                            && added[i] == rest[a] && added[j] == rest[b]
          ensures a < b
        {
          assert rest[a] == m[|p| + a] && rest[b] == m[|p| + b];
        }
      }
      OrderedRearrangement(added, rest);
    } else {
      if added != [] {
        var x := added[0];
        assert x in p'[|p|..];
        TailIsNew(p, p', x);
        PrefixMember(q, p, x);
        assert false;
      }
    }
  }

  lemma PrefixTailInOrder<T(!new)>(p: seq<T>, p': seq<T>, m: seq<T>)
    requires NoDuplicates(m) && p <= p' && p' <= m
    ensures InOrder(p'[|p|..], m)
  {
    var added := p'[|p|..];
    forall i, j, a, b | 0 <= i < j < |added| && 0 <= a < |m| && 0 <= b < |m|
                        && added[i] == m[a] && added[j] == m[b]
      ensures a < b
    {
      assert added[i] == m[|p| + i] && added[j] == m[|p| + j];
      assert a == |p| + i && b == |p| + j;
    }
  }

  /** A feature step keeps develop's closure table a prefix of main's exactly when
      the rows it adds come in main's order. */
  lemma SyncKeepsPrefix(t: TextRules, s: System, s': System, event: Event, trustedMain: Option<Roadmap>)
    requires Safe(t, s) && FeatureStep(t, s, s', event, trustedMain)
    requires Rows(s) <= s.MainRows()
    ensures Rows(s) <= Rows(s') && s'.MainRows() == s.MainRows()
    ensures Rows(s') <= s.MainRows() <==> InOrder(Rows(s')[|Rows(s)|..], s.MainRows())
    ensures trustedMain == s.Main() && trustedMain.Some? && Rows(s') <= s.MainRows() ==> Rows(s') == s.MainRows()
  {
    AddedRows(t, s, s', event, trustedMain);
    TablesUnique(t, s');
    var m, q := s.MainRows(), if trustedMain.Some? then trustedMain.value.mainEvidence else [];
    if InOrder(Rows(s')[|Rows(s)|..], m) {
      OrderedGrowth(Rows(s), Rows(s'), q, m);
    }
    if Rows(s') <= m {
      PrefixTailInOrder(Rows(s), Rows(s'), m);
      if trustedMain == s.Main() && trustedMain.Some? {
        OrderedGrowth(Rows(s), Rows(s'), q, m);
      }
    }
  }

  // ---- Once the order is lost ------------------------------------------------------------

  /** Develop never holds more closure rows than main, so a main table that is a
      prefix of develop's is develop's. */
  lemma MainPrefixMeansEqual(t: TextRules, s: System)
    requires Safe(t, s) && s.MainRows() <= Rows(s)
    ensures s.MainRows() == Rows(s)
  {
    TablesUnique(t, s);
    DrawnIsNoLonger(Rows(s), s.MainRows());
  }

  lemma StepGrowsTables(t: TextRules, s: System, s': System)
    requires Safe(t, s) && Step(t, s, s')
    ensures Safe(t, s') && Rows(s) <= Rows(s') && s.MainRows() <= s'.MainRows()
  {
    StepSafe(t, s, s');
    var d, m := s'.develops, s'.mains;
    assert s.develops <= d && s.mains <= m;
    assert Extends(d[|s.develops| - 1], d[|d| - 1]);
    if s.mains != [] {
      assert Extends(m[|s.mains| - 1], m[|m| - 1]);
    }
  }

  lemma OrderStaysLost(t: TextRules, s: System, s': System)
    requires Safe(t, s) && Step(t, s, s')
    requires !(Rows(s) <= s.MainRows())
    ensures !(Rows(s') <= s'.MainRows())
  {
    StepGrowsTables(t, s, s');
    if Rows(s') <= s'.MainRows() {
      PrefixesComparable(Rows(s), s.MainRows(), s'.MainRows());
      MainPrefixMeansEqual(t, s);
    }
  }

  /** No develop document, past or present, can be promoted out of order. */
  lemma NoPromotion(t: TextRules, s: System, doc: Roadmap)
    requires Safe(t, s) && s.mains != [] && doc in s.develops
    requires !(Rows(s) <= s.MainRows())
    ensures !PromotionOk(s.Main(), doc, doc)
  {
    if PromotionOk(s.Main(), doc, doc) {
      var i :| 0 <= i < |s.develops| && s.develops[i] == doc;
      assert Extends(s.develops[i], s.develops[|s.develops| - 1]);
      MainPrefixMeansEqual(t, s);
    }
  }

  /** Develop shows closure rows in an order that main's table does not begin with. */
  ghost predicate OutOfOrder(s: System) {
    s.develops != [] && !(Rows(s) <= s.MainRows())
  }

  lemma OutOfOrderNext(t: TextRules, run: seq<System>, i: nat)
    requires Run(t, run) && i + 1 < |run| && OutOfOrder(run[i])
    ensures OutOfOrder(run[i + 1])
  {
    RunSafe(t, run, i);
    RunSafe(t, run, i + 1);
    assert Step(t, run[i], run[i + 1]);
    OrderStaysLost(t, run[i], run[i + 1]);
  }

  lemma {:induction false} OrderLostForever(t: TextRules, run: seq<System>, i: nat, j: nat)
    requires Run(t, run) && i <= j < |run| && OutOfOrder(run[i])
    ensures OutOfOrder(run[j])
    decreases j
  {
    if i < j {
      OrderLostForever(t, run, i, j - 1);
      OutOfOrderNext(t, run, j - 1);
    }
  }

  ghost predicate TookInOrder(s: System, s': System)
    requires s.develops != [] && s'.develops != []
  {
    && |Rows(s)| <= |Rows(s')|
    && InOrder(Rows(s')[|Rows(s)|..], s'.MainRows())
  }

  /** Every step of the run that closed GAPs on develop took main's rows in main's order. */
  ghost predicate Orderly(t: TextRules, run: seq<System>)
    requires forall i | 0 <= i < |run| :: run[i].develops != []
  {
    forall i, j | 0 <= i < j < |run| && j == i + 1 :: TookInOrder(run[i], run[j])
  }

  lemma StepKeepsOrder(t: TextRules, s: System, s': System)
    requires Safe(t, s) && Step(t, s, s') && Rows(s) <= s.MainRows()
    ensures Safe(t, s') && Rows(s) <= Rows(s')
    ensures Rows(s') <= s'.MainRows() <==> TookInOrder(s, s')
  {
    StepGrowsTables(t, s, s');
    if event, trustedMain :| FeatureStep(t, s, s', event, trustedMain) {
      SyncKeepsPrefix(t, s, s', event, trustedMain);
    } else {
      assert Rows(s') == Rows(s);
    }
  }

  lemma RunNonempty(t: TextRules, run: seq<System>)
    requires Run(t, run)
    ensures forall i | 0 <= i < |run| :: run[i].develops != []
  {
    forall i | 0 <= i < |run|
      ensures run[i].develops != []
    {
      RunSafe(t, run, i);
    }
  }

  lemma {:induction false} OrderlyPrefix(t: TextRules, run: seq<System>, n: nat)
    requires Run(t, run) && n < |run|
    requires forall i | 0 <= i < |run| :: run[i].develops != []
    requires Orderly(t, run[..n + 1])
    ensures Safe(t, run[n]) && Rows(run[n]) <= run[n].MainRows()
  {
    RunSafe(t, run, n);
    if n == 0 {
      assert Rows(run[0]) == [] by {
        if Rows(run[0]) != [] {
          assert DocumentOk(t, Some(run[0].develops[0]));
          MainRowMeansDone(t, run[0].develops[0], Rows(run[0])[0]);
        }
      }
    } else {
      var shorter, longer := run[..n], run[..n + 1];
      assert forall i | 0 <= i < n :: shorter[i] == longer[i];
      assert run[..n - 1 + 1] == shorter;
      OrderlyPrefix(t, run, n - 1);
      assert longer[n] == run[n] && longer[n - 1] == run[n - 1];
      StepKeepsOrder(t, run[n - 1], run[n]);
    }
  }

  lemma StepLosesOrder(t: TextRules, run: seq<System>, i: nat)
    requires Run(t, run) && i + 1 < |run|
    requires run[i].develops != [] && run[i + 1].develops != [] && !TookInOrder(run[i], run[i + 1])
    ensures OutOfOrder(run[i + 1])
  {
    RunSafe(t, run, i);
    RunSafe(t, run, i + 1);
    assert Step(t, run[i], run[i + 1]);
    if Rows(run[i]) <= run[i].MainRows() {
      StepKeepsOrder(t, run[i], run[i + 1]);
    } else {
      OrderStaysLost(t, run[i], run[i + 1]);
    }
  }

  /** At the end of any run, develop's closure table is a prefix of main's exactly
      when every step of the run was orderly. */
  lemma {:induction false} PrefixIffOrderly(t: TextRules, run: seq<System>, n: nat)
    requires Run(t, run) && n < |run|
    requires forall i | 0 <= i < |run| :: run[i].develops != []
    ensures Rows(run[n]) <= run[n].MainRows() <==> Orderly(t, run[..n + 1])
  {
    if Orderly(t, run[..n + 1]) {
      OrderlyPrefix(t, run, n);
    } else {
      var longer := run[..n + 1];
      var i, j :| 0 <= i < j < |longer| && j == i + 1 && !TookInOrder(longer[i], longer[j]);
      assert longer[i] == run[i] && longer[j] == run[j];
      StepLosesOrder(t, run, i);
      OrderLostForever(t, run, j, n);
    }
  }

  /** After one disorderly step, no promotion is accepted at any later point. */
  lemma NoLaterPromotion(t: TextRules, run: seq<System>, i: nat, j: nat, doc: Roadmap)
    requires Run(t, run) && i <= j < |run| && OutOfOrder(run[i])
    requires run[j].mains != [] && doc in run[j].develops
    ensures !PromotionOk(run[j].Main(), doc, doc)
  {
    OrderLostForever(t, run, i, j);
    RunSafe(t, run, j);
    NoPromotion(t, run[j], doc);
  }
}
