/** Conservation of charges between the billing ledger, the journal and the manifest. */
module SoakCharges {
  import opened Bytes
  import opened SoakEvents
  import opened SoakPlan
  import opened SoakDriver
  import opened SoakInvariant
  import opened SoakClosure

  // ---- every run ----

  /** A journal in order charges nothing twice: the event id is the charge id. */
  lemma ChargesAreDistinct(w: World, j: EventLog, boots: nat)
    requires JournalOk(w, j, boots)
    ensures DistinctCharges(j)
  {
    forall i, k | 0 <= i < k < |j| && j[i].body.Charge? && j[k].body.Charge?
      ensures j[i].body.chargeId != j[k].body.chargeId
    {
      ChargeHasId(w, j[i]);
      ChargeHasId(w, j[k]);
    }
  }

  lemma ChargeHasId(w: World, e: Event)
    requires EventFits(w, e) && e.body.Charge?
    ensures e.id == Some(ChargeId(e.body.chargeId))
  {
  }

  /** The entry a charge was journaled from. */
  ghost predicate FromLedger(l: Ledger, b: Body)
  {
    b.Charge? &&
    exists n :: 0 <= n < |l| && l[n].chargeId == b.chargeId
                && l[n].usageUnits == b.usageUnits && l[n].chargeWei == b.chargeWei
  }

  /**
   In every state of every crashed and resumed run the journaled charges are distinct entries of the
   ledger, and every entry up to the saved cursor is among them.
   */
  lemma ChargesConserved(w: World, lives: seq<Life>)
    requires ManifestOk(w.m) && LedgerOk(w.ledger)
    ensures var d := RunLives(w, FRESH, lives);
      && DistinctCharges(d.journal)
      && (forall i :: 0 <= i < |d.journal| && d.journal[i].body.Charge? ==> FromLedger(w.ledger, d.journal[i].body))
      && (forall n :: 0 <= n < |w.ledger| && w.ledger[n].entryId <= d.state.cursor ==>
            HasCharge(d.journal, w.ledger[n].chargeId))
  {
    var d := RunLives(w, FRESH, lives);
    EveryRun(w, lives);
    ChargesAreDistinct(w, d.journal, d.state.boots);
    AllFromLedger(w, d.journal, d.state.boots);
    forall n | 0 <= n < |w.ledger| && w.ledger[n].entryId <= d.state.cursor
      ensures HasCharge(d.journal, w.ledger[n].chargeId)
    {
      IdIsCharge(w, d.journal, d.state.boots, w.ledger[n].chargeId);
    }
  }

  lemma AllFromLedger(w: World, j: EventLog, boots: nat)
    requires JournalOk(w, j, boots)
    ensures forall i :: 0 <= i < |j| && j[i].body.Charge? ==> FromLedger(w.ledger, j[i].body)
  {
    forall i | 0 <= i < |j| && j[i].body.Charge?
      ensures FromLedger(w.ledger, j[i].body)
    {
      assert InLedger(w.ledger, j[i].body);
    }
  }

  lemma IdIsCharge(w: World, j: EventLog, boots: nat, c: string)
    requires JournalOk(w, j, boots) && HasId(j, ChargeId(c))
    ensures HasCharge(j, c)
  {
    var i :| 0 <= i < |j| && j[i].id == Some(ChargeId(c));
    assert EventFits(w, j[i]);
  }

  // ---- equal charge ids have equal totals ----

  ghost predicate DistinctEntries(l: Ledger)
  {
    forall i, k :: 0 <= i < k < |l| ==> l[i].chargeId != l[k].chargeId
  }

  /** The journal charges exactly the entries of a page. */
  ghost predicate SameCharges(j: EventLog, page: Ledger)
  {
    && (forall k :: 0 <= k < |page| ==> HasCharge(j, page[k].chargeId))
    && (forall i :: 0 <= i < |j| && j[i].body.Charge? ==> FromLedger(page, j[i].body))
  }

  lemma {:induction false} RemoveEntry(l: Ledger, k: nat)
    requires k < |l|
    ensures LedgerUsage(l) == LedgerUsage(l[..k] + l[k + 1..]) + l[k].usageUnits
    ensures LedgerWei(l) == LedgerWei(l[..k] + l[k + 1..]) + l[k].chargeWei
    decreases |l|
  {
    var rest := l[..k] + l[k + 1..];
    if k == |l| - 1 {
      assert rest == l[..k];
    } else {
      var front := l[..|l| - 1];
      RemoveEntry(front, k);
      assert rest[..|rest| - 1] == front[..k] + front[k + 1..];
      assert rest[|rest| - 1] == l[|l| - 1];
    }
  }

  /** Without the last line, the journal charges the page without that line's entry. */
  lemma SameWithout(j: EventLog, page: Ledger, k: nat)
    requires DistinctCharges(j) && DistinctEntries(page) && SameCharges(j, page)
    requires j != [] && j[|j| - 1].body.Charge? && k < |page| && page[k].chargeId == j[|j| - 1].body.chargeId
    ensures SameCharges(j[..|j| - 1], page[..k] + page[k + 1..])
    ensures DistinctEntries(page[..k] + page[k + 1..])
  {
    var front, rest, last := j[..|j| - 1], page[..k] + page[k + 1..], j[|j| - 1].body;
    forall n | 0 <= n < |rest|
      ensures HasCharge(front, rest[n].chargeId)
    {
      assert rest[n] == page[if n < k then n else n + 1];
      var i :| 0 <= i < |j| && j[i].body.Charge? && j[i].body.chargeId == rest[n].chargeId;
      assert front[i] == j[i];
    }
    forall i | 0 <= i < |front| && front[i].body.Charge?
      ensures FromLedger(rest, front[i].body)
    {
      assert FromLedger(page, j[i].body);
      var n :| 0 <= n < |page| && page[n].chargeId == j[i].body.chargeId
               && page[n].usageUnits == j[i].body.usageUnits && page[n].chargeWei == j[i].body.chargeWei;
      assert n != k;
      assert rest[if n < k then n else n - 1] == page[n];
    }
  }

  lemma SameButOther(j: EventLog, page: Ledger)
    requires SameCharges(j, page) && j != [] && !j[|j| - 1].body.Charge?
    ensures SameCharges(j[..|j| - 1], page)
  {
    var front := j[..|j| - 1];
    forall k | 0 <= k < |page|
      ensures HasCharge(front, page[k].chargeId)
    {
      assert HasCharge(j, page[k].chargeId);
      var i :| 0 <= i < |j| && j[i].body.Charge? && j[i].body.chargeId == page[k].chargeId;
      assert front[i] == j[i];
    }
    forall i | 0 <= i < |front| && front[i].body.Charge?
      ensures FromLedger(page, front[i].body)
    {
      assert front[i] == j[i];
    }
  }

  lemma Uncharged(page: Ledger)
    requires page != []
    ensures !SameCharges([], page)
  {
    assert !HasCharge([], page[0].chargeId);
  }

  /** Conservation: the same charges carry the same totals, whatever order they were journaled in. */
  lemma {:induction false} TotalsConserved(j: EventLog, page: Ledger)
    requires DistinctCharges(j) && DistinctEntries(page) && SameCharges(j, page)
    ensures Usage(j) == LedgerUsage(page) && Wei(j) == LedgerWei(page)
    decreases |j|
  {
    if j == [] {
      if page != [] { Uncharged(page); }
    } else {
      var front, last := j[..|j| - 1], j[|j| - 1].body;
      if last.Charge? {
        assert FromLedger(page, last);
        var k :| 0 <= k < |page| && page[k].chargeId == last.chargeId
                 && page[k].usageUnits == last.usageUnits && page[k].chargeWei == last.chargeWei;
        SameWithout(j, page, k);
        TotalsConserved(front, page[..k] + page[k + 1..]);
        RemoveEntry(page, k);
      } else {
        SameButOther(j, page);
        TotalsConserved(front, page);
      }
    }
  }

  // ---- the expected totals ----

  lemma PageEntry(l: Ledger, visible: nat, b: Body)
    requires LedgerOk(l) && FromLedger(l, b) && Lists(FirstPage(l, visible), b.chargeId)
    ensures FromLedger(FirstPage(l, visible), b)
  {
    var page := FirstPage(l, visible);
    var k :| 0 <= k < |page| && page[k].chargeId == b.chargeId;
    var n :| 0 <= n < |l| && l[n].chargeId == b.chargeId
             && l[n].usageUnits == b.usageUnits && l[n].chargeWei == b.chargeWei;
    assert n == k;
  }

  lemma IdsGiveEntries(w: World, j: EventLog, boots: nat, visible: nat)
    requires LedgerOk(w.ledger) && JournalOk(w, j, boots) && SameIds(j, FirstPage(w.ledger, visible))
    ensures SameCharges(j, FirstPage(w.ledger, visible)) && DistinctEntries(FirstPage(w.ledger, visible))
  {
    AllFromLedger(w, j, boots);
    EntriesOfPage(w.ledger, j, visible);
  }

  lemma EntriesOfPage(l: Ledger, j: EventLog, visible: nat)
    requires LedgerOk(l) && SameIds(j, FirstPage(l, visible))
    requires forall i :: 0 <= i < |j| && j[i].body.Charge? ==> FromLedger(l, j[i].body)
    ensures SameCharges(j, FirstPage(l, visible)) && DistinctEntries(FirstPage(l, visible))
  {
    forall i | 0 <= i < |j| && j[i].body.Charge?
      ensures FromLedger(FirstPage(l, visible), j[i].body)
    {
      PageEntry(l, visible, j[i].body);
    }
  }

  /**
   For a reachable journal the comparison of the totals adds nothing: the ledger check passes exactly
   when the charge ids agree.
   */
  lemma AgreementIsIds(w: World, j: EventLog, boots: nat, visible: nat)
    requires LedgerOk(w.ledger) && JournalOk(w, j, boots)
    ensures AgreesWithLedger(w, j, visible) <==> SameIds(j, FirstPage(w.ledger, visible))
  {
    if SameIds(j, FirstPage(w.ledger, visible)) {
      IdsGiveEntries(w, j, boots, visible);
      ChargesAreDistinct(w, j, boots);
      TotalsConserved(j, FirstPage(w.ledger, visible));
    }
  }

  /** The charges before a closure are exactly a page of the ledger, with the totals of the manifest. */
  ghost predicate Conserved(w: World, j: EventLog, page: Ledger)
  {
    && |page| <= PAGE_LIMIT && page <= w.ledger && SameCharges(j, page)
    && LedgerUsage(page) == Usage(j) == w.m.expectedUsage
    && LedgerWei(page) == Wei(j) == w.m.expectedWei
  }

  function BeforeLast(j: EventLog): EventLog
  {
    if j == [] then [] else j[..|j| - 1]
  }

  lemma ExpectedConserves(w: World, d: Disk, visible: nat)
    requires LedgerOk(w.ledger) && JournalOk(w, d.journal, d.state.boots) && Expected(w, d, visible)
    ensures Conserved(w, d.journal, FirstPage(w.ledger, visible))
  {
    IdsGiveEntries(w, d.journal, d.state.boots, visible);
  }

  /** In every closed run the journal, the ledger page and the manifest carry the same totals. */
  lemma ClosedRunConserves(w: World, lives: seq<Life>)
    requires ManifestOk(w.m) && LedgerOk(w.ledger) && IsClosed(RunLives(w, FRESH, lives).journal)
    ensures var j := RunLives(w, FRESH, lives).journal;
      exists page :: Conserved(w, BeforeLast(j), page)
  {
    var before := ClosedRun(w, lives);
    ClosedConserves(w, before, RunLives(w, FRESH, lives));
  }

  lemma ClosedConserves(w: World, d: Disk, d': Disk)
    requires LedgerOk(w.ledger) && Core(w, d) && (exists visible :: Expected(w, d, visible))
    requires exists duration :: d' == Closing(w, d, duration)
    ensures exists page :: Conserved(w, BeforeLast(d'.journal), page)
  {
    var visible :| Expected(w, d, visible);
    assert BeforeLast(d'.journal) == d.journal;
    ExpectedConserves(w, d, visible);
  }

  lemma ChargeStays(j: EventLog, j': EventLog, c: string)
    requires j <= j' && HasCharge(j, c)
    ensures HasCharge(j', c)
  {
    var i :| 0 <= i < |j| && j[i].body.Charge? && j[i].body.chargeId == c;
    assert j'[i] == j[i];
  }

  lemma BeyondThePage(l: Ledger, j: EventLog, page: Ledger)
    requires LedgerOk(l) && |l| > PAGE_LIMIT && |page| <= PAGE_LIMIT && page <= l && SameCharges(j, page)
    ensures !HasCharge(j, l[PAGE_LIMIT].chargeId)
  {
    var c := l[PAGE_LIMIT].chargeId;
    forall n | 0 <= n < |page|
      ensures page[n].chargeId != c
    {
      assert page[n] == l[n];
    }
    forall i | 0 <= i < |j| && j[i].body.Charge?
      ensures j[i].body.chargeId != c
    {
      assert FromLedger(page, j[i].body);
    }
  }

  /**
   A reachable journal that charges exactly what is visible of the ledger passes the ledger check if and
   only if that fits into one page.
   */
  lemma OnePageOnly(w: World, j: EventLog, boots: nat, visible: nat)
    requires LedgerOk(w.ledger) && JournalOk(w, j, boots) && visible <= |w.ledger| && SameIds(j, w.ledger[..visible])
    ensures AgreesWithLedger(w, j, visible) <==> visible <= 500
  {
    AgreementIsIds(w, j, boots, visible);
    if visible > PAGE_LIMIT {
      var c := w.ledger[PAGE_LIMIT].chargeId;
      assert w.ledger[..visible][PAGE_LIMIT].chargeId == c && HasCharge(j, c);
      NotOnThePage(w.ledger, w.ledger[..PAGE_LIMIT]);
      Unlisted(j, w.ledger[..PAGE_LIMIT], c);
    }
  }

  lemma NotOnThePage(l: Ledger, page: Ledger)
    requires LedgerOk(l) && |l| > PAGE_LIMIT && page == l[..PAGE_LIMIT]
    ensures !Lists(page, l[PAGE_LIMIT].chargeId)
  {
    forall n | 0 <= n < |page|
      ensures page[n].chargeId != l[PAGE_LIMIT].chargeId
    {
      assert page[n] == l[n];
    }
  }

  lemma Unlisted(j: EventLog, page: Ledger, c: string)
    requires HasCharge(j, c) && !Lists(page, c)
    ensures !SameIds(j, page)
  {
  }

  /**
   The ledger is only ever compared with its first page, so a soak that has journaled a 501st charge
   stays open for good: no generations that follow can close it.
   */
  lemma NeverCloses(w: World, first: seq<Life>, more: seq<Life>)
    requires ManifestOk(w.m) && LedgerOk(w.ledger) && |w.ledger| > PAGE_LIMIT
    requires HasCharge(RunLives(w, FRESH, first).journal, w.ledger[PAGE_LIMIT].chargeId)
    ensures !IsClosed(RunLives(w, FRESH, first + more).journal)
  {
    var j, j', c := RunLives(w, FRESH, first).journal, RunLives(w, FRESH, first + more).journal,
        w.ledger[PAGE_LIMIT].chargeId;
    AppendOnly(w, first, more);
    ChargeStays(j, j', c);
    if IsClosed(j') {
      ClosedRunConserves(w, first + more);
      var page :| Conserved(w, BeforeLast(j'), page);
      BeyondThePage(w.ledger, BeforeLast(j'), page);
      LastIsClosure(w, first + more);
    }
  }

  /** The closure is the last line, and no charge. */
  lemma LastIsClosure(w: World, lives: seq<Life>)
    requires ManifestOk(w.m) && LedgerOk(w.ledger) && IsClosed(RunLives(w, FRESH, lives).journal)
    ensures var j := RunLives(w, FRESH, lives).journal;
      forall c :: HasCharge(j, c) <==> HasCharge(BeforeLast(j), c)
  {
    var j := RunLives(w, FRESH, lives).journal;
    ExactlyOnce(w, lives);
    var n :| 0 <= n < |j| && j[n].body.Closed?;
    forall c
      ensures HasCharge(j, c) <==> HasCharge(BeforeLast(j), c)
    {
      if HasCharge(BeforeLast(j), c) { ChargeStays(BeforeLast(j), j, c); }
      if HasCharge(j, c) {
        var i :| 0 <= i < |j| && j[i].body.Charge? && j[i].body.chargeId == c;
        assert BeforeLast(j)[i] == j[i];
      }
    }
  }

  // ---- a killed step run again ----

  /** The file after a run of entries: those it does not hold yet, in order. */
  function AddLines(lines: seq<Line>, entries: seq<Entry>, step: Step): seq<Line>
    decreases |entries|
  {
    if entries == [] then lines
    else
      var e := entries[0];
      AddLines(if HasLine(lines, ChargeId(e.chargeId)) then lines
               else lines + [Line(|lines| + 1, Some(ChargeId(e.chargeId)),
                   Charge(e.chargeId, e.usageUnits, e.chargeWei, step))],
               entries[1..], step)
  }

  predicate HasLine(lines: seq<Line>, id: EventId)
  {
    exists i :: 0 <= i < |lines| && lines[i].id == Some(id)
  }

  lemma LineIds(j: EventLog)
    ensures forall id :: HasLine(Lines(j), id) <==> HasId(j, id)
  {
    forall id
      ensures HasLine(Lines(j), id) <==> HasId(j, id)
    {
      if HasId(j, id) {
        var i :| 0 <= i < |j| && j[i].id == Some(id);
        assert Lines(j)[i].id == Some(id);
      }
      if HasLine(Lines(j), id) {
        var i :| 0 <= i < |Lines(j)| && Lines(j)[i].id == Some(id);
        assert j[i].id == Some(id);
      }
    }
  }

  lemma EmittedLines(d: Disk, id: EventId, b: Body)
    ensures Lines(Emitted(d, id, b).journal)
         == if HasLine(Lines(d.journal), id) then Lines(d.journal)
            else Lines(d.journal) + [Line(|Lines(d.journal)| + 1, Some(id), b)]
  {
    LineIds(d.journal);
  }

  /** A kill after m entries leaves the lines of the first m. */
  lemma {:induction false} EntriesLines(d: Disk, entries: seq<Entry>, step: Step, kill: nat)
    ensures var t := EmitEntries(d, entries, step, kill);
      && t.disk.state == d.state
      && (t.end == Finished <==> |entries| <= kill)
      && Lines(t.disk.journal)
        == AddLines(Lines(d.journal), entries[..if |entries| <= kill then |entries| else kill], step)
    decreases |entries|
  {
    var m := if |entries| <= kill then |entries| else kill;
    if entries != [] && kill > 0 {
      var e := entries[0];
      var d' := Emitted(d, ChargeId(e.chargeId), Charge(e.chargeId, e.usageUnits, e.chargeWei, step));
      EmittedLines(d, ChargeId(e.chargeId), Charge(e.chargeId, e.usageUnits, e.chargeWei, step));
      EntriesLines(d', entries[1..], step, kill - 1);
      assert entries[..m][1..] == entries[1..][..m - 1];
    }
  }

  lemma {:induction false} AddThen(lines: seq<Line>, a: seq<Entry>, b: seq<Entry>, step: Step)
    ensures AddLines(lines, a + b, step) == AddLines(AddLines(lines, a, step), b, step)
    decreases |a|
  {
    if a == [] {
      assert a + b == b;
    } else {
      assert (a + b)[0] == a[0] && (a + b)[1..] == a[1..] + b;
      var e := a[0];
      AddThen(if HasLine(lines, ChargeId(e.chargeId)) then lines
              else lines + [Line(|lines| + 1, Some(ChargeId(e.chargeId)),
                  Charge(e.chargeId, e.usageUnits, e.chargeWei, step))],
              a[1..], b, step);
    }
  }

  lemma {:induction false} AddedAll(lines: seq<Line>, a: seq<Entry>, step: Step)
    ensures lines <= AddLines(lines, a, step)
    ensures forall e :: e in a ==> HasLine(AddLines(lines, a, step), ChargeId(e.chargeId))
    decreases |a|
  {
    if a != [] {
      var e := a[0];
      var next := if HasLine(lines, ChargeId(e.chargeId)) then lines
                  else lines + [Line(|lines| + 1, Some(ChargeId(e.chargeId)),
                      Charge(e.chargeId, e.usageUnits, e.chargeWei, step))];
      AddedAll(next, a[1..], step);
      var out := AddLines(next, a[1..], step);
      assert HasLine(next, ChargeId(e.chargeId)) by {
        if next != lines { assert next[|lines|].id == Some(ChargeId(e.chargeId)); }
      }
      var i :| 0 <= i < |next| && next[i].id == Some(ChargeId(e.chargeId));
      assert out[i] == next[i];
      assert a == [e] + a[1..];
    }
  }

  lemma {:induction false} AddAgain(lines: seq<Line>, a: seq<Entry>, step: Step)
    requires forall e :: e in a ==> HasLine(lines, ChargeId(e.chargeId))
    ensures AddLines(lines, a, step) == lines
    decreases |a|
  {
    if a != [] {
      assert a[0] in a && forall e :: e in a[1..] ==> e in a;
      AddAgain(lines, a[1..], step);
    }
  }

  /** Where the page starts after a cursor that has, or has not, moved past it. */
  function PageStart(d: Disk, d': Disk, from: nat, until: nat): nat
  {
    if d'.state.cursor == d.state.cursor then from else until
  }

  /** A page journaled in part and then in full is the page journaled in full. */
  lemma PageAgain(lines: seq<Line>, page: seq<Entry>, m: nat, step: Step)
    requires m <= |page|
    ensures AddLines(AddLines(lines, page[..m], step), page, step) == AddLines(lines, page, step)
  {
    var a, b := page[..m], page[m..];
    assert page == a + b;
    var part := AddLines(lines, a, step);
    AddedAll(lines, a, step);
    AddAgain(part, a, step);
    AddThen(part, a, b, step);
    AddThen(lines, a, b, step);
  }

  /**
   A charging step killed anywhere and run again by the next generation against the same ledger leaves
   the file and the cursor of a run that was never killed, so every total over the step is the same.
   */
  lemma KilledThenRerun(w: World, d: Disk, step: Step, from: nat, until: nat, first: nat, second: nat, whole: nat)
    requires LedgerOk(w.ledger) && PageAt(w.ledger, from, until, d.state.cursor)
    requires var t := EmitCharges(w, d, step, from, until, None, first);
      EmitCharges(w, Rebooted(t.disk), step, PageStart(d, t.disk, from, until), until, None, second).end == Finished
    requires EmitCharges(w, d, step, from, until, None, whole).end == Finished
    ensures var t := EmitCharges(w, d, step, from, until, None, first);
      var again := EmitCharges(w, Rebooted(t.disk), step, PageStart(d, t.disk, from, until), until, None, second);
      var once := EmitCharges(w, d, step, from, until, None, whole);
      && Lines(again.disk.journal) == Lines(once.disk.journal)
      && again.disk.state.cursor == once.disk.state.cursor
  {
    var page := w.ledger[from..until];
    var m := if |page| <= first then |page| else first;
    EntriesLines(d, page, step, first);
    EntriesLines(d, page, step, whole);
    assert page[..|page|] == page;
    var t := EmitCharges(w, d, step, from, until, None, first);
    if t.disk.state.cursor == d.state.cursor {
      EntriesLines(Rebooted(t.disk), page, step, second);
      PageAgain(Lines(d.journal), page, m, step);
    } else {
      assert w.ledger[until..until] == [];
    }
  }
}
