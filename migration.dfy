/**
 * The job's driver (src/main.py): it pages through the source invoices
 * created in a widened window, skips drafts and invoices finalized outside
 * the acceptance window, and hands every other invoice to the Xero client.
 */
module Migration {
  import opened Wrappers
  import Paging
  import S = StripeApi
  import X = XeroApi
  import XeroSync

  /** The acceptance window `[startDate, endDate]`, both ends inclusive, in seconds. */
  datatype Window = Window(startDate: int, endDate: int)

  /** How far before the window the fetch reaches back: 31 days, in seconds. */
  const LOOKBACK: int := 2678400
  const PAGE_LIMIT: nat := 100

  /** The `created` range of the fetch: `[FetchFrom(w), w.endDate)`. */
  function FetchFrom(w: Window): int {
    w.startDate - LOOKBACK
  }

  /** The invoices the source listing yields for the job, in order. */
  function Fetched(store: seq<S.Invoice>, w: Window): seq<S.Invoice> {
    S.CreatedIn(store, FetchFrom(w), w.endDate)
  }

  /** The eligibility filter: not a draft, and finalized inside the window. */
  predicate Accepted(inv: S.Invoice, w: Window) {
    inv.status != S.Draft && w.startDate <= inv.finalizedAt <= w.endDate
  }

  /** The accepted invoices of `xs`, in order. */
  function AcceptedOf(xs: seq<S.Invoice>, w: Window): seq<S.Invoice> {
    if xs == [] then []
    else
      var last := xs[|xs| - 1];
      AcceptedOf(xs[..|xs| - 1], w) + if Accepted(last, w) then [last] else []
  }

  /** `migrate_invoice` applied to each of `xs` in turn. */
  function RunAll(cfg: XeroSync.Config, s: X.OrgState, xs: seq<S.Invoice>): X.OrgState {
    if xs == [] then s
    else XeroSync.MigrateStep(cfg, RunAll(cfg, s, xs[..|xs| - 1]), xs[|xs| - 1])
  }

  lemma RunAllExtend(cfg: XeroSync.Config, s: X.OrgState, xs: seq<S.Invoice>, x: S.Invoice)
    ensures RunAll(cfg, s, xs + [x]) == XeroSync.MigrateStep(cfg, RunAll(cfg, s, xs), x)
  {
    assert (xs + [x])[..|xs|] == xs;
  }

  /** The job's effect on `xs`: each accepted invoice goes through `migrate_invoice`, the others are skipped. */
  function RunAccepted(cfg: XeroSync.Config, s: X.OrgState, xs: seq<S.Invoice>, w: Window): X.OrgState {
    if xs == [] then s
    else
      var before := RunAccepted(cfg, s, xs[..|xs| - 1], w);
      var last := xs[|xs| - 1];
      if Accepted(last, w) then XeroSync.MigrateStep(cfg, before, last) else before
  }

  lemma RunAcceptedExtend(cfg: XeroSync.Config, s: X.OrgState, xs: seq<S.Invoice>, x: S.Invoice, w: Window)
    ensures RunAccepted(cfg, s, xs + [x], w)
            == if Accepted(x, w) then XeroSync.MigrateStep(cfg, RunAccepted(cfg, s, xs, w), x)
               else RunAccepted(cfg, s, xs, w)
  {
    assert (xs + [x])[..|xs|] == xs;
  }

  /** Skipping while running is running over the filtered list. */
  lemma {:induction false} RunAcceptedIsRunAll(cfg: XeroSync.Config, s: X.OrgState, xs: seq<S.Invoice>, w: Window)
    ensures RunAccepted(cfg, s, xs, w) == RunAll(cfg, s, AcceptedOf(xs, w))
  {
    if xs != [] {
      var init := xs[..|xs| - 1];
      var x := xs[|xs| - 1];
      RunAcceptedIsRunAll(cfg, s, init, w);
      if Accepted(x, w) {
        RunAllExtend(cfg, s, AcceptedOf(init, w), x);
      } else {
        assert AcceptedOf(init, w) + [] == AcceptedOf(init, w);
        assert AcceptedOf(xs, w) == AcceptedOf(init, w);
      }
    }
  }

  /** Two pages in a row have the effect of their concatenation. */
  lemma {:induction false} RunAcceptedAppend(cfg: XeroSync.Config, s: X.OrgState, xs: seq<S.Invoice>, ys: seq<S.Invoice>, w: Window)
    ensures RunAccepted(cfg, s, xs + ys, w) == RunAccepted(cfg, RunAccepted(cfg, s, xs, w), ys, w)
  {
    if ys != [] {
      var init := ys[..|ys| - 1];
      var y := ys[|ys| - 1];
      assert xs + ys == (xs + init) + [y];
      RunAcceptedExtend(cfg, s, xs + init, y, w);
      RunAcceptedAppend(cfg, s, xs, init, w);
    } else {
      assert xs + ys == xs;
    }
  }

  /** Exactly the accepted invoices of `xs` are kept, each as often as it occurs. */
  lemma {:induction false} AcceptedOfMembers(xs: seq<S.Invoice>, w: Window)
    ensures forall x :: x in AcceptedOf(xs, w) <==> x in xs && Accepted(x, w)
    ensures forall x :: multiset(AcceptedOf(xs, w))[x] == if Accepted(x, w) then multiset(xs)[x] else 0
    ensures |AcceptedOf(xs, w)| <= |xs|
  {
    if xs != [] {
      AcceptedOfMembers(xs[..|xs| - 1], w);
      assert xs == xs[..|xs| - 1] + [xs[|xs| - 1]];
    }
  }

  /**
   * An invoice reaches `migrate_invoice` exactly when it was created in the
   * fetch range, is not a draft and was finalized inside the window.
   */
  lemma MigratedIff(store: seq<S.Invoice>, w: Window, inv: S.Invoice)
    ensures inv in AcceptedOf(Fetched(store, w), w)
            <==> && inv in store
                 && w.startDate - 2678400 <= inv.created < w.endDate
                 && inv.status != S.Draft
                 && w.startDate <= inv.finalizedAt <= w.endDate
  {
    AcceptedOfMembers(Fetched(store, w), w);
    S.CreatedInMembers(store, FetchFrom(w), w.endDate);
  }

  /** Drafts never reach `migrate_invoice`, whatever their timestamps. */
  lemma DraftsNeverMigrated(store: seq<S.Invoice>, w: Window, inv: S.Invoice)
    requires inv.status == S.Draft
    ensures inv !in AcceptedOf(Fetched(store, w), w)
  {
    MigratedIff(store, w, inv);
  }

  /**
   * The window is inclusive at both ends: an invoice finalized on either
   * bound is accepted, one finalized a second outside it is not.
   */
  lemma WindowBounds(inv: S.Invoice, w: Window)
    requires inv.status != S.Draft
    ensures inv.finalizedAt == w.startDate && w.startDate <= w.endDate ==> Accepted(inv, w)
    ensures inv.finalizedAt == w.endDate && w.startDate <= w.endDate ==> Accepted(inv, w)
    ensures inv.finalizedAt == w.startDate - 1 || inv.finalizedAt == w.endDate + 1 ==> !Accepted(inv, w)
  {
  }

  /**
   * The fetch reaches further back than the window: an invoice created up to
   * 31 days before the window and finalized inside it is still migrated.
   */
  lemma LookbackCatchesLateFinalized(store: seq<S.Invoice>, w: Window, inv: S.Invoice)
    requires inv in store && inv.status != S.Draft
    requires w.startDate - 2678400 <= inv.created < w.startDate
    requires w.startDate <= inv.finalizedAt <= w.endDate
    ensures FetchFrom(w) < w.startDate
    ensures inv in AcceptedOf(Fetched(store, w), w)
  {
    MigratedIff(store, w, inv);
  }

  // ------------------------------------------------------------------
  // Re-running the job

  lemma {:induction false} RunKeepsConsistent(cfg: XeroSync.Config, s: X.OrgState, xs: seq<S.Invoice>)
    requires X.Consistent(s)
    ensures X.Consistent(RunAll(cfg, s, xs))
  {
    if xs != [] {
      RunKeepsConsistent(cfg, s, xs[..|xs| - 1]);
      XeroSync.StepKeepsConsistent(cfg, RunAll(cfg, s, xs[..|xs| - 1]), xs[|xs| - 1]);
    }
  }

  /** After a run, every invoice it was given is settled: it exists, and is paid if it should be. */
  lemma {:induction false} RunSettles(cfg: XeroSync.Config, s: X.OrgState, xs: seq<S.Invoice>)
    requires X.Consistent(s)
    ensures forall x :: x in xs ==> XeroSync.Settled(RunAll(cfg, s, xs), x)
  {
    if xs != [] {
      var init := xs[..|xs| - 1];
      var last := xs[|xs| - 1];
      var mid := RunAll(cfg, s, init);
      RunSettles(cfg, s, init);
      RunKeepsConsistent(cfg, s, init);
      XeroSync.StepSettles(cfg, mid, last);
      forall x | x in xs
        ensures XeroSync.Settled(RunAll(cfg, s, xs), x)
      {
        if x != last {
          assert x in init by { assert xs == init + [last]; }
          XeroSync.StepKeepsSettled(cfg, mid, last, x);
        }
      }
    }
  }

  lemma {:induction false} SettledRunIsNoOp(cfg: XeroSync.Config, s: X.OrgState, xs: seq<S.Invoice>)
    requires forall x :: x in xs ==> XeroSync.Settled(s, x)
    ensures RunAll(cfg, s, xs) == s
  {
    if xs != [] {
      SettledRunIsNoOp(cfg, s, xs[..|xs| - 1]);
      XeroSync.SettledIsFixpoint(cfg, s, xs[|xs| - 1]);
    }
  }

  /** Running the job a second time over the same invoices changes nothing. */
  lemma RerunIsNoOp(cfg: XeroSync.Config, s: X.OrgState, xs: seq<S.Invoice>)
    requires X.Consistent(s)
    ensures RunAll(cfg, RunAll(cfg, s, xs), xs) == RunAll(cfg, s, xs)
  {
    RunSettles(cfg, s, xs);
    SettledRunIsNoOp(cfg, RunAll(cfg, s, xs), xs);
  }

  /** Every invoice a run was given has a destination invoice under its number afterwards. */
  lemma RunStoresEveryInvoice(cfg: XeroSync.Config, s: X.OrgState, xs: seq<S.Invoice>)
    requires X.Consistent(s)
    ensures forall x :: x in xs ==> x.number in RunAll(cfg, s, xs).invoices
  {
    RunSettles(cfg, s, xs);
  }

  // ------------------------------------------------------------------
  // The job

  /**
   * The inner loop of `migrate`: every invoice of `page` that is not a draft
   * and was finalized inside the window goes to `migrate_invoice`, in order.
   * `last` is the loop variable after the loop: the last invoice of the page,
   * or `cursor` when the page is empty.
   */
  method MigratePage(xc: XeroSync.XeroClient, page: seq<S.Invoice>, w: Window, cursor: Option<S.Invoice>)
    returns (last: Option<S.Invoice>)
    requires xc.org.Valid()
    requires forall inv :: inv in page ==> Paging.Distinct(inv.lines)
    modifies xc.org
    ensures last == if page == [] then cursor else Some(page[|page| - 1])
    ensures xc.org.State() == RunAccepted(xc.config, old(xc.org.State()), page, w)
    ensures xc.org.Valid()
  {
    ghost var s0 := xc.org.State();
    last := cursor;
    for i := 0 to |page|
      invariant last == if i == 0 then cursor else Some(page[i - 1])
      invariant xc.org.State() == RunAccepted(xc.config, s0, page[..i], w)
      invariant xc.org.Valid()
    {
      var inv := page[i];
      last := Some(inv);
      assert page[..i + 1] == page[..i] + [inv];
      RunAcceptedExtend(xc.config, s0, page[..i], inv, w);
      if inv.status == S.Draft {
        continue;
      }
      if !(w.startDate <= inv.finalizedAt <= w.endDate) {
        continue;
      }
      xc.MigrateInvoice(inv);
    }
    assert page[..|page|] == page;
  }

  /**
   * What one request of the fetch loop yields once `n` invoices have been
   * consumed: the next invoices in order, the cursor it leaves behind, and
   * `has_more` false exactly on the page that ends the listing.
   */
  lemma FetchPage(store: seq<S.Invoice>, w: Window, n: nat)
    requires Paging.Distinct(store)
    requires forall inv :: inv in store ==> Paging.Distinct(inv.lines)
    requires n <= |Fetched(store, w)|
    ensures var fetched := Fetched(store, w);
            var page := S.ListInvoices(store, Paging.CursorAfter(fetched, n), PAGE_LIMIT, FetchFrom(w), w.endDate);
            && n + |page.data| <= |fetched|
            && fetched[..n] + page.data == fetched[..n + |page.data|]
            && Paging.CursorAfter(fetched, n + |page.data|)
               == (if page.data == [] then Paging.CursorAfter(fetched, n) else Some(page.data[|page.data| - 1]))
            && (page.hasMore ==> |page.data| > 0)
            && (!page.hasMore ==> n + |page.data| == |fetched|)
            && (forall inv :: inv in page.data ==> Paging.Distinct(inv.lines))
  {
    var fetched := Fetched(store, w);
    var page := S.ListInvoices(store, Paging.CursorAfter(fetched, n), PAGE_LIMIT, FetchFrom(w), w.endDate);
    S.CreatedInDistinct(store, FetchFrom(w), w.endDate);
    S.CreatedInMembers(store, FetchFrom(w), w.endDate);
    Paging.NextPage(fetched, n, PAGE_LIMIT);
    forall inv | inv in page.data
      ensures Paging.Distinct(inv.lines)
    {
      var i :| 0 <= i < |page.data| && page.data[i] == inv;
      assert (fetched[..n] + page.data)[n + i] == inv;
      assert fetched[..n + |page.data|][n + i] == inv;
    }
  }

  /**
   * `migrate`: the pagination loop. The destination ends as if
   * `migrate_invoice` had been called on each accepted fetched invoice, in
   * listing order.
   */
  method Migrate(xc: XeroSync.XeroClient, store: seq<S.Invoice>, w: Window)
    requires xc.org.Valid()
    requires Paging.Distinct(store)
    requires forall inv :: inv in store ==> Paging.Distinct(inv.lines)
    modifies xc.org
    ensures xc.org.State() == RunAll(xc.config, old(xc.org.State()), AcceptedOf(Fetched(store, w), w))
    ensures xc.org.Valid()
  {
    ghost var fetched := Fetched(store, w);
    ghost var s0 := xc.org.State();
    ghost var cfg := xc.config;
    ghost var n: nat := 0;
    var invoice: Option<S.Invoice> := None;
    var more := true;
    while more
      invariant n <= |fetched|
      invariant invoice == Paging.CursorAfter(fetched, n)
      invariant xc.org.State() == RunAccepted(cfg, s0, fetched[..n], w)
      invariant !more ==> n == |fetched|
      invariant xc.org.Valid()
      decreases |fetched| - n, more
    {
      var invoices := S.ListInvoices(store, invoice, PAGE_LIMIT, FetchFrom(w), w.endDate);
      FetchPage(store, w, n);
      RunAcceptedAppend(cfg, s0, fetched[..n], invoices.data, w);
      invoice := MigratePage(xc, invoices.data, w, invoice);
      n := n + |invoices.data|;
      more := invoices.hasMore;
    }
    assert fetched[..n] == fetched;
    RunAcceptedIsRunAll(cfg, s0, fetched, w);
  }
}
