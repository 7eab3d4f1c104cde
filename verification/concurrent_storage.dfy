/**
 * Concurrent page storage: after the dashlet list is known, the thumbnail
 * and every dashlet capture are independent units of work that may complete
 * in any order. Each unit writes its outcome into its own slot (slot 0 for
 * the thumbnail, slot k + 1 for dashlet k), and the snapshot is assembled
 * from the slots by index. The completion order is a parameter, standing for
 * the scheduler; whatever it is, the outcome equals the sequential one. On
 * failure the reported error is that of the lowest failing slot, which is the
 * error the sequential walk meets first.
 */
module ConcurrentStorage {
  import opened Wrappers
  import opened Remote
  import opened Snapshot
  import opened PageStorage

  /** `order` lists each of the slots `0..n-1` exactly once. */
  predicate IsCompletionOrder(order: seq<nat>, n: nat) {
    && |order| == n
    && (forall i :: 0 <= i < |order| ==> order[i] < n)
    && (forall k :: 0 <= k < n ==> k in order)
  }

  /** The number of concurrent units: the thumbnail and one per dashlet; none when the dashlets cannot be resolved. */
  function SlotCount(server: Server, source: DashboardSource): nat {
    match ResolveDashlets(server, source).result
    case Ok(ds) => |ds| + 1
    case Err(_) => 0
  }

  /** The requests the unit of slot `k` issues; there is no unit beyond the last dashlet. */
  function SlotRequests(dashboardId: string, ds: seq<DashletSource>, k: nat): seq<Request> {
    if k == 0 then [ThumbnailRequest(dashboardId)]
    else if k <= |ds| then DashletTrace(ds[k - 1])
    else []
  }

  /** The requests of the first `n` units to complete, in the order they ran. */
  function CompletionTrace(dashboardId: string, ds: seq<DashletSource>, order: seq<nat>, n: nat): seq<Request>
    requires n <= |order|
    requires forall i :: 0 <= i < |order| ==> order[i] <= |ds|
    decreases n
  {
    if n == 0 then []
    else CompletionTrace(dashboardId, ds, order, n - 1) + SlotRequests(dashboardId, ds, order[n - 1])
  }

  /** The shared result container: a slot for the thumbnail, one per dashlet, and the requests issued so far. */
  datatype Units = Units(
    thumbnail: Option<Result<Option<seq<Byte>>, Error>>,
    dashlets: seq<Option<Result<StoredDashlet, Error>>>,
    trace: seq<Request>)

  /** Runs the unit of slot `k`: it fetches, then writes its own slot and nothing else. */
  function RunUnit(server: Server, dashboardId: string, ds: seq<DashletSource>, u: Units, k: nat): (v: Units)
    requires k <= |ds| && |u.dashlets| == |ds|
    ensures |v.dashlets| == |ds|
    ensures v.trace == u.trace + SlotRequests(dashboardId, ds, k)
  {
    if k == 0 then
      var th := CaptureThumbnail(server, dashboardId);
      Units(Some(th.result), u.dashlets, u.trace + th.trace)
    else
      var c := CaptureDashlet(server, ds[k - 1]);
      Units(u.thumbnail, u.dashlets[k - 1 := Some(c.result)], u.trace + c.trace)
  }

  /** What the container holds after the first `i` units of `order` have run. */
  predicate Holds(server: Server, dashboardId: string, ds: seq<DashletSource>, order: seq<nat>, i: nat, u: Units)
    requires i <= |order|
    requires forall j :: 0 <= j < |order| ==> order[j] <= |ds|
  {
    && |u.dashlets| == |ds|
    && ((exists j :: 0 <= j < i && order[j] == 0) ==> u.thumbnail.Some?)
    && (u.thumbnail.Some? ==> u.thumbnail.value == CaptureThumbnail(server, dashboardId).result)
    && (forall j :: 0 <= j < i && order[j] > 0 ==> u.dashlets[order[j] - 1].Some?)
    && (forall k :: 0 <= k < |ds| && u.dashlets[k].Some? ==> u.dashlets[k].value == CaptureDashlet(server, ds[k]).result)
    && u.trace == CompletionTrace(dashboardId, ds, order, i)
  }

  lemma RunUnitKeepsHolds(server: Server, dashboardId: string, ds: seq<DashletSource>, order: seq<nat>, i: nat, u: Units)
    requires i < |order|
    requires forall j :: 0 <= j < |order| ==> order[j] <= |ds|
    requires Holds(server, dashboardId, ds, order, i, u)
    ensures Holds(server, dashboardId, ds, order, i + 1, RunUnit(server, dashboardId, ds, u, order[i]))
  {
    var k := order[i];
    var v := RunUnit(server, dashboardId, ds, u, k);
    assert v.trace == CompletionTrace(dashboardId, ds, order, i + 1);
    ThumbnailSlotKept(server, dashboardId, ds, order, i, u);
    DashletSlotsKept(server, dashboardId, ds, order, i, u);
  }

  lemma ThumbnailSlotKept(server: Server, dashboardId: string, ds: seq<DashletSource>, order: seq<nat>, i: nat, u: Units)
    requires i < |order|
    requires forall j :: 0 <= j < |order| ==> order[j] <= |ds|
    requires Holds(server, dashboardId, ds, order, i, u)
    ensures var v := RunUnit(server, dashboardId, ds, u, order[i]);
      && ((exists j :: 0 <= j < i + 1 && order[j] == 0) ==> v.thumbnail.Some?)
      && (v.thumbnail.Some? ==> v.thumbnail.value == CaptureThumbnail(server, dashboardId).result)
  {
    var v := RunUnit(server, dashboardId, ds, u, order[i]);
    if exists j :: 0 <= j < i + 1 && order[j] == 0 {
      var j :| 0 <= j < i + 1 && order[j] == 0;
      if j < i {
        assert u.thumbnail.Some?;
      }
    }
  }

  lemma DashletSlotsKept(server: Server, dashboardId: string, ds: seq<DashletSource>, order: seq<nat>, i: nat, u: Units)
    requires i < |order|
    requires forall j :: 0 <= j < |order| ==> order[j] <= |ds|
    requires Holds(server, dashboardId, ds, order, i, u)
    ensures var v := RunUnit(server, dashboardId, ds, u, order[i]);
      && (forall j :: 0 <= j < i + 1 && order[j] > 0 ==> v.dashlets[order[j] - 1].Some?)
      && (forall k :: 0 <= k < |ds| && v.dashlets[k].Some? ==> v.dashlets[k].value == CaptureDashlet(server, ds[k]).result)
  {
    var v := RunUnit(server, dashboardId, ds, u, order[i]);
    forall j | 0 <= j < i + 1 && order[j] > 0
      ensures v.dashlets[order[j] - 1].Some?
    {
      if j < i {
        assert u.dashlets[order[j] - 1].Some?;
      }
    }
  }

  /**
   * Runs the units in completion order, each writing its own slot; once all
   * have run, every slot holds what capturing it on its own yields.
   */
  method RunUnits(server: Server, dashboardId: string, ds: seq<DashletSource>, order: seq<nat>)
    returns (thumbnail: Result<Option<seq<Byte>>, Error>, slots: seq<Result<StoredDashlet, Error>>, trace: seq<Request>)
    requires IsCompletionOrder(order, |ds| + 1)
    ensures thumbnail == CaptureThumbnail(server, dashboardId).result
    ensures slots == Captures(server, ds)
    ensures trace == CompletionTrace(dashboardId, ds, order, |order|)
  {
    var u := Units(None, seq(|ds|, _ => None), []);
    var i := 0;
    while i < |order|
      invariant 0 <= i <= |order|
      invariant Holds(server, dashboardId, ds, order, i, u)
    {
      RunUnitKeepsHolds(server, dashboardId, ds, order, i, u);
      u := RunUnit(server, dashboardId, ds, u, order[i]);
      i := i + 1;
    }
    assert 0 in order;
    forall k | 0 <= k < |ds|
      ensures u.dashlets[k].Some?
    {
      assert k + 1 in order;
      var j :| 0 <= j < |order| && order[j] == k + 1;
    }
    thumbnail := u.thumbnail.value;
    slots := seq(|ds|, k requires 0 <= k < |ds| => u.dashlets[k].value);
    trace := u.trace;
  }

  /**
   * Stores a dashboard with the thumbnail and dashlet captures completing in
   * the order `order`. The outcome is the sequential storage's outcome; the
   * requests issued are the same capture points, in completion order.
   */
  method StoreDashboard(server: Server, source: DashboardSource, order: seq<nat>) returns (o: Fetched<StoredDashboard>)
    requires IsCompletionOrder(order, SlotCount(server, source))
    ensures o.result == PageStorage.StoreDashboard(server, source).result
    ensures ResolveDashlets(server, source).result.Ok? ==>
      o.trace == ResolveDashlets(server, source).trace
                 + CompletionTrace(source.header.id, ResolveDashlets(server, source).result.value, order, |order|)
    ensures ResolveDashlets(server, source).result.Err? ==> o.trace == ResolveDashlets(server, source).trace
  {
    var id := source.header.id;
    var d := ResolveDashlets(server, source);
    if d.result.Err? {
      return Fetched(Err(d.result.error), d.trace);
    }
    var ds := d.result.value;
    var thumbnail, slots, trace := RunUnits(server, id, ds, order);
    StoreDashletsAssemble(server, ds);
    match thumbnail
    case Err(e) =>
      o := Fetched(Err(e), d.trace + trace);
    case Ok(t) =>
      match Assemble(slots)
      case Ok(dashlets) =>
        o := Fetched(Ok(StoredDashboard(id, source.header.name, source.header.lastChange, t, dashlets)), d.trace + trace);
      case Err(e) =>
        o := Fetched(Err(e), d.trace + trace);
  }

  /** The slots `lo..hi-1`, ascending. */
  function Span(lo: nat, hi: nat): (s: seq<nat>)
    ensures |s| == if lo <= hi then hi - lo else 0
    ensures forall i :: 0 <= i < |s| ==> lo <= s[i] < hi
    decreases hi - lo
  {
    if lo >= hi then [] else [lo] + Span(lo + 1, hi)
  }

  /** Each slot of a span occurs in it once, and nothing else does. */
  lemma {:induction false} SpanCount(lo: nat, hi: nat, x: nat)
    ensures multiset(Span(lo, hi))[x] == if lo <= x < hi then 1 else 0
    decreases hi - lo
  {
    if lo < hi {
      SpanCount(lo + 1, hi, x);
      assert Span(lo, hi) == [lo] + Span(lo + 1, hi);
      assert multiset(Span(lo, hi)) == multiset{lo} + multiset(Span(lo + 1, hi));
    }
  }

  /** A completion order lists the slots `0..n-1` each exactly once: it is a permutation of them. */
  lemma CompletionOrderPermutes(order: seq<nat>, n: nat)
    requires IsCompletionOrder(order, n)
    ensures multiset(order) == multiset(Span(0, n))
  {
    var slots, ran := multiset(Span(0, n)), multiset(order);
    forall x: nat
      ensures slots[x] <= ran[x]
    {
      SpanCount(0, n, x);
      if x < n {
        assert x in order;
      }
    }
    var extra := ran - slots;
    assert ran == slots + extra;
    assert |extra| == 0;
  }

  /** The requests of a sequence of units, counted with multiplicity. */
  function SlotBag(dashboardId: string, ds: seq<DashletSource>, ks: seq<nat>): multiset<Request>
    decreases |ks|
  {
    if |ks| == 0 then multiset{}
    else multiset(SlotRequests(dashboardId, ds, ks[0])) + SlotBag(dashboardId, ds, ks[1..])
  }

  lemma {:induction false} SlotBagConcat(dashboardId: string, ds: seq<DashletSource>, a: seq<nat>, b: seq<nat>)
    ensures SlotBag(dashboardId, ds, a + b) == SlotBag(dashboardId, ds, a) + SlotBag(dashboardId, ds, b)
    decreases |a|
  {
    if |a| == 0 {
      assert a + b == b;
    } else {
      assert (a + b)[1..] == a[1..] + b;
      SlotBagConcat(dashboardId, ds, a[1..], b);
    }
  }

  /** Taking out the unit at position `p` takes out its requests. */
  lemma SlotBagRemove(dashboardId: string, ds: seq<DashletSource>, b: seq<nat>, p: nat)
    requires p < |b|
    ensures SlotBag(dashboardId, ds, b)
         == multiset(SlotRequests(dashboardId, ds, b[p])) + SlotBag(dashboardId, ds, b[..p] + b[p + 1..])
    ensures multiset(b) == multiset{b[p]} + multiset(b[..p] + b[p + 1..])
  {
    var before, after := b[..p], b[p + 1..];
    assert b == before + ([b[p]] + after);
    assert ([b[p]] + after)[1..] == after;
    SlotBagConcat(dashboardId, ds, before, [b[p]] + after);
    SlotBagConcat(dashboardId, ds, before, after);
    assert multiset(before + after) == multiset(before) + multiset(after);
  }

  /** The bag of requests of a sequence of units does not depend on the order they run in. */
  lemma {:induction false} SlotBagPermutation(dashboardId: string, ds: seq<DashletSource>, a: seq<nat>, b: seq<nat>)
    requires multiset(a) == multiset(b)
    ensures SlotBag(dashboardId, ds, a) == SlotBag(dashboardId, ds, b)
    decreases |a|
  {
    if |a| == 0 {
      assert |multiset(b)| == 0;
    } else {
      var x := a[0];
      assert x in multiset(b);
      var p :| 0 <= p < |b| && b[p] == x;
      var others := b[..p] + b[p + 1..];
      SlotBagRemove(dashboardId, ds, b, p);
      TailBag(a, others);
      SlotBagPermutation(dashboardId, ds, a[1..], others);
      assert SlotBag(dashboardId, ds, a)
          == multiset(SlotRequests(dashboardId, ds, x)) + SlotBag(dashboardId, ds, a[1..]);
    }
  }

  /** Taking the head off a sequence takes it out of the sequence's multiset. */
  lemma TailBag(a: seq<nat>, others: seq<nat>)
    requires |a| > 0
    requires multiset(a) == multiset{a[0]} + multiset(others)
    ensures multiset(a[1..]) == multiset(others)
  {
    assert a == [a[0]] + a[1..];
    assert multiset(a) == multiset{a[0]} + multiset(a[1..]);
    assert forall y :: multiset(a[1..])[y] == multiset(a)[y] - multiset{a[0]}[y] == multiset(others)[y];
  }

  /** The requests of the first `n` completed units, counted with multiplicity. */
  lemma {:induction false} CompletionTraceBag(dashboardId: string, ds: seq<DashletSource>, order: seq<nat>, n: nat)
    requires n <= |order|
    requires forall i :: 0 <= i < |order| ==> order[i] <= |ds|
    ensures multiset(CompletionTrace(dashboardId, ds, order, n)) == SlotBag(dashboardId, ds, order[..n])
    decreases n
  {
    if n > 0 {
      CompletionTraceBag(dashboardId, ds, order, n - 1);
      assert order[..n] == order[..n - 1] + [order[n - 1]];
      SlotBagConcat(dashboardId, ds, order[..n - 1], [order[n - 1]]);
    }
  }

  /** Running the units of dashlets `i..|ds|-1`, in slot order, issues the requests of those dashlets. */
  lemma {:induction false} DashletSlotsBag(dashboardId: string, ds: seq<DashletSource>, i: nat)
    requires i <= |ds|
    ensures SlotBag(dashboardId, ds, Span(i + 1, |ds| + 1)) == multiset(DashletRequests(ds[i..]))
    decreases |ds| - i
  {
    if i < |ds| {
      var rest := Span(i + 2, |ds| + 1);
      DashletSlotsBag(dashboardId, ds, i + 1);
      SpanCons(i + 1, |ds| + 1);
      assert SlotBag(dashboardId, ds, Span(i + 1, |ds| + 1))
          == multiset(SlotRequests(dashboardId, ds, i + 1)) + SlotBag(dashboardId, ds, rest);
      assert SlotRequests(dashboardId, ds, i + 1) == DashletTrace(ds[i]);
      DashletRequestsFrom(ds, i);
      assert multiset(DashletRequests(ds[i..]))
          == multiset(DashletTrace(ds[i])) + multiset(DashletRequests(ds[i + 1..]));
    } else {
      assert ds[i..] == [];
    }
  }

  lemma SpanCons(lo: nat, hi: nat)
    requires lo < hi
    ensures Span(lo, hi) == [lo] + Span(lo + 1, hi)
    ensures Span(lo, hi)[1..] == Span(lo + 1, hi)
  {
  }

  lemma DashletRequestsFrom(ds: seq<DashletSource>, i: nat)
    requires i < |ds|
    ensures DashletRequests(ds[i..]) == DashletTrace(ds[i]) + DashletRequests(ds[i + 1..])
  {
    assert ds[i..][1..] == ds[i + 1..];
  }

  /**
   * Whatever the completion order, concurrent storage issues exactly the
   * requests sequential storage issues on success, each as often: the
   * thumbnail and one content request per view dashlet.
   */
  lemma CompletionTraceIsCapturePoints(dashboardId: string, ds: seq<DashletSource>, order: seq<nat>)
    requires IsCompletionOrder(order, |ds| + 1)
    ensures multiset(CompletionTrace(dashboardId, ds, order, |order|))
         == multiset([ThumbnailRequest(dashboardId)] + DashletRequests(ds))
  {
    var slots := Span(0, |ds| + 1);
    CompletionTraceBag(dashboardId, ds, order, |order|);
    assert order[..|order|] == order;
    CompletionOrderPermutes(order, |ds| + 1);
    SlotBagPermutation(dashboardId, ds, order, slots);
    AllSlotsBag(dashboardId, ds);
  }

  /** Running every unit once, in slot order, issues the thumbnail request and then the dashlets' requests. */
  lemma AllSlotsBag(dashboardId: string, ds: seq<DashletSource>)
    ensures SlotBag(dashboardId, ds, Span(0, |ds| + 1))
         == multiset([ThumbnailRequest(dashboardId)] + DashletRequests(ds))
  {
    SpanCons(0, |ds| + 1);
    DashletSlotsBag(dashboardId, ds, 0);
    assert ds[0..] == ds;
    assert SlotBag(dashboardId, ds, Span(0, |ds| + 1))
        == multiset([ThumbnailRequest(dashboardId)]) + SlotBag(dashboardId, ds, Span(1, |ds| + 1));
  }
}
