/** The decision layer of devices.go: which requested ids were not found, how a long id list is
    cut into ListDevices requests, the create-or-patch task run for each device and the tally of
    its results. Remote calls go to the `Registry` model and return the outcomes its `Faults`
    record dictates. */
module Devices {
  import opened Wrappers
  import opened Iot
  import opened Registry
  import opened Types
  import opened Strings
  import Seqs
  import Utils

  // ---------------------------------------------------------------- getMissingDeviceIds

  /** The requested ids that no fetched device carries, in request order, duplicates kept. */
  ghost function MissingIds(devices: seq<Device>, ids: seq<string>): seq<string>
  {
    Seqs.Without(ids, IdsOf(devices))
  }

  method GetMissingDeviceIds(devices: seq<Device>, deviceIds: seq<string>) returns (missing: seq<string>)
    ensures missing == MissingIds(devices, deviceIds)
  {
    missing := [];
    var i := 0;
    while i < |deviceIds|
      invariant 0 <= i <= |deviceIds|
      invariant missing == MissingIds(devices, deviceIds[..i])
    {
      var id := deviceIds[i];
      var found := false;
      var j := 0;
      while j < |devices|
        invariant 0 <= j <= |devices|
        invariant found <==> exists k :: 0 <= k < j && devices[k].id == id
      {
        if devices[j].id == id {
          found := true;
        }
        j := j + 1;
      }
      assert found <==> id in IdsOf(devices) by {
        if id in IdsOf(devices) {
          var d :| d in devices && d.id == id;
          var k :| 0 <= k < |devices| && devices[k] == d;
        }
      }
      Seqs.FilterSnoc(deviceIds[..i], id, (x: string) => x !in IdsOf(devices));
      assert deviceIds[..i + 1] == deviceIds[..i] + [id];
      if !found {
        missing := missing + [id];
      }
      i := i + 1;
    }
    assert deviceIds[..i] == deviceIds;
  }

  /** An id is reported missing exactly when it was requested and no device has it; the report
      keeps the request order. */
  lemma MissingIdsExact(devices: seq<Device>, ids: seq<string>, id: string)
    ensures id in MissingIds(devices, ids) <==> id in ids && forall d :: d in devices ==> d.id != id
    ensures Seqs.IsSubsequence(MissingIds(devices, ids), ids)
  {
    Seqs.FilterMembership(ids, (x: string) => x !in IdsOf(devices), id);
    Seqs.FilterIsSubsequence(ids, (x: string) => x !in IdsOf(devices));
  }

  // ---------------------------------------------------------------- the source registry

  /** A ListDevices iteration that stops with an error after yielding `yielded` devices. */
  datatype ListFault = ListFault(yielded: nat, error: string)

  /** The source registry as ListDevices sees it: its devices in listing order, and the requests
      (by their device-id list) whose iteration fails. */
  datatype SourceRegistry = SourceRegistry(devices: seq<Device>, failing: map<seq<string>, ListFault>)

  /** No two devices of the registry share an id. */
  ghost predicate UniqueIds(devices: seq<Device>)
  {
    forall i, j :: 0 <= i < j < |devices| ==> devices[i].id != devices[j].id
  }

  ghost predicate Distinct(ids: seq<string>)
  {
    forall i, j :: 0 <= i < j < |ids| ==> ids[i] != ids[j]
  }

  ghost function SetOf(ids: seq<string>): set<string>
  {
    set id | id in ids
  }

  /** The devices a ListDevices request selects. A request without device ids is not filtered:
      it selects the whole registry. Otherwise it selects the registered devices whose id it
      names, each once, in registry order. */
  function Selected(source: SourceRegistry, ids: seq<string>): seq<Device>
  {
    if |ids| == 0 then source.devices else Seqs.Filter(source.devices, (d: Device) => d.id in ids)
  }

  /** One ListDevices iteration: the selected devices, cut short by the request's fault if it
      has one. */
  function ListDevices(source: SourceRegistry, ids: seq<string>): (l: SourceListing)
    ensures l.error.None? <==> ids !in source.failing
    ensures l.error.None? ==> l.devices == Selected(source, ids)
    ensures l.error.Some? ==> l.error.value == source.failing[ids].error
    ensures l.devices <= Selected(source, ids)
  {
    var all := Selected(source, ids);
    if ids in source.failing then
      var fault := source.failing[ids];
      SourceListing(all[..if fault.yielded < |all| then fault.yielded else |all|], Some(fault.error))
    else SourceListing(all, None)
  }

  /** A request naming ids selects exactly the registered devices it names, in registry order;
      a request naming none selects every device. */
  lemma SelectedExact(source: SourceRegistry, ids: seq<string>, d: Device)
    ensures |ids| == 0 ==> Selected(source, ids) == source.devices
    ensures |ids| > 0 ==> (d in Selected(source, ids) <==> d in source.devices && d.id in ids)
    ensures |ids| > 0 ==> Seqs.IsSubsequence(Selected(source, ids), source.devices)
  {
    Seqs.FilterMembership(source.devices, (x: Device) => x.id in ids, d);
    Seqs.FilterIsSubsequence(source.devices, (x: Device) => x.id in ids);
  }

  /** For a request naming ids, the ids reported missing are exactly its unregistered ones, in
      request order. */
  lemma MissingAreUnregistered(source: SourceRegistry, ids: seq<string>)
    requires |ids| > 0
    ensures MissingIds(Selected(source, ids), ids) == Seqs.Without(ids, IdsOf(source.devices))
  {
    var sel := Selected(source, ids);
    forall id | id in ids
      ensures id in IdsOf(sel) <==> id in IdsOf(source.devices)
    {
      if id in IdsOf(sel) {
        var d :| d in sel && d.id == id;
        SelectedExact(source, ids, d);
      }
      if id in IdsOf(source.devices) {
        var d :| d in source.devices && d.id == id;
        SelectedExact(source, ids, d);
        assert d in sel;
      }
    }
    FilterAgree(ids, IdsOf(sel), IdsOf(source.devices));
  }

  /** Over a registry of unique ids, a request selects one device per distinct registered id
      it names. */
  lemma {:induction false} SelectedCount(devices: seq<Device>, ids: seq<string>)
    requires UniqueIds(devices)
    ensures |Seqs.Filter(devices, (d: Device) => d.id in ids)| == |IdsOf(devices) * SetOf(ids)|
  {
    if |devices| > 0 {
      var p := devices[..|devices| - 1];
      var x := devices[|devices| - 1];
      UniqueLast(devices);
      SelectedCount(p, ids);
      CardStep(IdsOf(p), SetOf(ids), x.id);
      assert x.id in SetOf(ids) <==> x.id in ids;
    }
  }

  lemma CardStep(a: set<string>, s: set<string>, x: string)
    requires x !in a
    ensures |(a + {x}) * s| == |a * s| + if x in s then 1 else 0
  {
    if x in s {
      assert (a + {x}) * s == (a * s) + {x};
    } else {
      assert (a + {x}) * s == a * s;
    }
  }

  /** The prefix of a registry of unique ids has unique ids and lacks the last device's id. */
  lemma UniqueLast(devices: seq<Device>)
    requires UniqueIds(devices) && |devices| > 0
    ensures UniqueIds(devices[..|devices| - 1])
    ensures devices[|devices| - 1].id !in IdsOf(devices[..|devices| - 1])
    ensures IdsOf(devices) == IdsOf(devices[..|devices| - 1]) + {devices[|devices| - 1].id}
  {
    assert devices == devices[..|devices| - 1] + [devices[|devices| - 1]];
    IdsOfAppend(devices[..|devices| - 1], devices[|devices| - 1]);
  }

  lemma {:induction false} DistinctCount(ids: seq<string>)
    requires Distinct(ids)
    ensures |SetOf(ids)| == |ids|
  {
    if |ids| > 0 {
      var p := ids[..|ids| - 1];
      var x := ids[|ids| - 1];
      assert ids == p + [x];
      assert Distinct(p);
      DistinctCount(p);
      assert x !in SetOf(p);
      assert SetOf(ids) == SetOf(p) + {x};
    }
  }

  /** With a registry of unique ids and a request of distinct ids, no more devices come back than
      were asked for, and fewer exactly when some requested id is not registered. */
  lemma ShortExactlyWhenUnregistered(source: SourceRegistry, ids: seq<string>)
    requires UniqueIds(source.devices) && Distinct(ids) && |ids| > 0
    ensures |Selected(source, ids)| <= |ids|
    ensures |Selected(source, ids)| == |ids| <==> forall id :: id in ids ==> id in IdsOf(source.devices)
  {
    SelectedCount(source.devices, ids);
    DistinctCount(ids);
    var found := IdsOf(source.devices) * SetOf(ids);
    assert |SetOf(ids) - found| == |SetOf(ids)| - |found|;
    if forall id :: id in ids ==> id in IdsOf(source.devices) {
      assert found == SetOf(ids);
    } else {
      var id :| id in ids && id !in IdsOf(source.devices);
      assert id in SetOf(ids) - found;
    }
  }

  /** A request naming one registered device twice gets back one device for two ids: the shortfall
      warning fires, yet lists no missing id. */
  lemma RepeatedIdWarnsWithNoneMissing(source: SourceRegistry, id: string)
    requires UniqueIds(source.devices) && id in IdsOf(source.devices)
    ensures |Selected(source, [id, id])| == 1
    ensures MissingIds(Selected(source, [id, id]), [id, id]) == []
  {
    SelectedCount(source.devices, [id, id]);
    assert IdsOf(source.devices) * SetOf([id, id]) == {id};
    MissingAreUnregistered(source, [id, id]);
    var registered := IdsOf(source.devices);
    assert [id, id] == [id] + [id] && [id] == [] + [id];
    Seqs.FilterSnoc([], id, (x: string) => x !in registered);
    Seqs.FilterSnoc([id], id, (x: string) => x !in registered);
  }

  /** Filtering by two sets that agree on every element of the sequence gives the same result. */
  lemma {:induction false} FilterAgree(ids: seq<string>, a: set<string>, b: set<string>)
    requires forall id :: id in ids ==> (id in a <==> id in b)
    ensures Seqs.Without(ids, a) == Seqs.Without(ids, b)
  {
    if |ids| > 0 {
      var p := ids[..|ids| - 1];
      assert ids == p + [ids[|ids| - 1]];
      FilterAgree(p, a, b);
    }
  }

  // ---------------------------------------------------------------- fetchDevices

  /** fetchDevices: one ListDevices iteration. An iteration error ends the process
      (log.Fatalln); the model returns it as a Failure, with no warning. Otherwise, when fewer
      devices come back than ids were asked for, the warning lists the missing ids. Config
      history fetching is not part of this model. */
  method FetchDevices(source: SourceRegistry, deviceIds: seq<string>)
    returns (r: Result<seq<Device>, string>, warning: Option<seq<string>>)
    ensures deviceIds in source.failing ==> r == Failure(source.failing[deviceIds].error) && warning.None?
    ensures deviceIds !in source.failing ==> r == Success(Selected(source, deviceIds))
    ensures warning.Some? <==> r.Success? && |r.value| != |deviceIds|
    ensures warning.Some? ==> warning.value == MissingIds(r.value, deviceIds)
  {
    var listing := ListDevices(source, deviceIds);
    if listing.error.Some? {
      return Failure(listing.error.value), None;
    }
    var devices := listing.devices;
    warning := None;
    if |devices| != |deviceIds| {
      var missing := GetMissingDeviceIds(devices, deviceIds);
      warning := Some(missing);
    }
    return Success(devices), warning;
  }

  // ---------------------------------------------------------------- batching the CSV ids

  const BatchSize: nat := 10000

  /** maxIterations: floor(n / 10000) + 1. */
  function BatchCount(n: nat): nat
  {
    n / BatchSize + 1
  }

  /** The index range [lo, hi) that fetchDevicesFromCSV slices for batch i of k. */
  function BatchRangeAsWritten(n: nat, k: nat, i: nat): (nat, nat)
  {
    if i == k - 1 then (1 + i * BatchSize, n)
    else if i == 0 then (0, BatchSize)
    else (1 + i * BatchSize, BatchSize + i * BatchSize)
  }

  predicate InRange(r: (nat, nat), j: nat)
  {
    r.0 <= j < r.1
  }

  /** The first `count` slices as the source takes them, or None when a slice is out of range
      (Go panics on it). */
  function SlicesAsWritten(ids: seq<string>, count: nat): Option<seq<seq<string>>>
    requires count <= BatchCount(|ids|)
  {
    if count == 0 then Some([])
    else match SlicesAsWritten(ids, count - 1)
      case None => None
      case Some(prev) =>
        var r := BatchRangeAsWritten(|ids|, BatchCount(|ids|), count - 1);
        if r.0 <= r.1 <= |ids| then Some(prev + [ids[r.0..r.1]]) else None
  }

  /** The device-id lists of the ListDevices requests fetchDevicesFromCSV makes as written, or
      None when it panics. */
  function RequestsAsWritten(ids: seq<string>): Option<seq<seq<string>>>
  {
    if |ids| > BatchSize then SlicesAsWritten(ids, BatchCount(|ids|)) else Some([ids])
  }

  /** The batch loop of fetchDevicesFromCSV as written. */
  method FetchRequestsAsWritten(deviceIds: seq<string>) returns (requests: Option<seq<seq<string>>>)
    ensures requests == RequestsAsWritten(deviceIds)
  {
    if |deviceIds| <= BatchSize {
      return Some([deviceIds]);
    }
    var maxIterations := |deviceIds| / BatchSize + 1;
    var batches: seq<seq<string>> := [];
    var i := 0;
    while i < maxIterations
      invariant 0 <= i <= maxIterations
      invariant SlicesAsWritten(deviceIds, i) == Some(batches)
    {
      var lo: nat, hi: nat;
      if i == maxIterations - 1 {
        lo, hi := 1 + i * BatchSize, |deviceIds|;
      } else if i == 0 {
        lo, hi := 0, BatchSize;
      } else {
        lo, hi := 1 + i * BatchSize, BatchSize + i * BatchSize;
      }
      if !(lo <= hi <= |deviceIds|) {
        // slice bounds out of range: the process panics
        SlicesNonePersists(deviceIds, i + 1, maxIterations);
        return None;
      }
      batches := batches + [deviceIds[lo..hi]];
      i := i + 1;
    }
    return Some(batches);
  }

  lemma {:induction false} SlicesNonePersists(ids: seq<string>, c: nat, c': nat)
    requires c <= c' <= BatchCount(|ids|)
    requires SlicesAsWritten(ids, c).None?
    ensures SlicesAsWritten(ids, c').None?
    decreases c' - c
  {
    if c < c' {
      SlicesNonePersists(ids, c, c' - 1);
    }
  }

  /** When the slices are in range, slice t is ids[lo..hi) for the t-th range. */
  lemma {:induction false} SlicesShape(ids: seq<string>, c: nat)
    requires c <= BatchCount(|ids|)
    requires SlicesAsWritten(ids, c).Some?
    ensures |SlicesAsWritten(ids, c).value| == c
    ensures forall t :: 0 <= t < c ==>
      var r := BatchRangeAsWritten(|ids|, BatchCount(|ids|), t);
      r.0 <= r.1 <= |ids| && SlicesAsWritten(ids, c).value[t] == ids[r.0..r.1]
  {
    if c > 0 {
      SlicesShape(ids, c - 1);
    }
  }

  /** Every range before the last one is in range. */
  lemma {:induction false} SlicesBeforeLast(ids: seq<string>, c: nat)
    requires |ids| > BatchSize && c < BatchCount(|ids|)
    ensures SlicesAsWritten(ids, c).Some?
  {
    if c > 0 {
      SlicesBeforeLast(ids, c - 1);
      var n := |ids|;
      var t := c - 1;
      assert n == (n / BatchSize) * BatchSize + n % BatchSize;
      assert t * BatchSize + BatchSize <= (n / BatchSize) * BatchSize;
    }
  }

  /** The batch loop as written panics exactly when there are more than 10000 ids and their count
      is a multiple of 10000: the last slice then starts one past the end. */
  lemma AsWrittenPanicsExactly(ids: seq<string>)
    ensures RequestsAsWritten(ids).None? <==> |ids| > BatchSize && |ids| % BatchSize == 0
  {
    var n := |ids|;
    if n > BatchSize {
      var k := BatchCount(n);
      SlicesBeforeLast(ids, k - 1);
      assert n == (n / BatchSize) * BatchSize + n % BatchSize;
    }
  }

  /** Twenty thousand ids make the batch loop panic. */
  lemma TwentyThousandIdsPanic(ids: seq<string>)
    requires |ids| == 20000
    ensures RequestsAsWritten(ids) == None
  {
    AsWrittenPanicsExactly(ids);
  }

  /** The ranges as written never overlap: a later batch starts at or after the end of an
      earlier one. */
  lemma AsWrittenDisjoint(n: nat, t: nat, u: nat)
    requires n > BatchSize && t < u < BatchCount(n)
    ensures BatchRangeAsWritten(n, BatchCount(n), t).1 <= BatchRangeAsWritten(n, BatchCount(n), u).0
  {
  }

  /** The ranges as written cover index j exactly when j is 0 or not a multiple of 10000: the
      ids at 10000, 20000, ... are never requested. */
  lemma AsWrittenCoverage(n: nat, j: nat)
    requires n > BatchSize && n % BatchSize != 0 && j < n
    ensures (exists t :: 0 <= t < BatchCount(n) && InRange(BatchRangeAsWritten(n, BatchCount(n), t), j))
        <==> (j == 0 || j % BatchSize != 0)
  {
    var k := BatchCount(n);
    assert j == (j / BatchSize) * BatchSize + j % BatchSize;
    assert n == (n / BatchSize) * BatchSize + n % BatchSize;
    if j == 0 || j % BatchSize != 0 {
      var t := j / BatchSize;
      assert t <= k - 1;
      assert InRange(BatchRangeAsWritten(n, k, t), j);
    } else {
      var m := j / BatchSize;
      forall t | 0 <= t < k
        ensures !InRange(BatchRangeAsWritten(n, k, t), j)
      {
        if t < m {
          assert (t + 1) * BatchSize <= m * BatchSize;
        } else if t > m {
          assert m * BatchSize < 1 + t * BatchSize;
        }
      }
    }
  }

  /** With distinct ids, more than 10000 of them and a count that is not a multiple of 10000, the
      batch loop does not panic, but the id at position 10000 * m (m >= 1) is in no request. */
  lemma AsWrittenSkipsId(ids: seq<string>, m: nat)
    requires forall a, b :: 0 <= a < b < |ids| ==> ids[a] != ids[b]
    requires |ids| > BatchSize && |ids| % BatchSize != 0
    requires 1 <= m < BatchCount(|ids|)
    ensures m * BatchSize < |ids|
    ensures RequestsAsWritten(ids).Some?
    ensures forall b :: b in RequestsAsWritten(ids).value ==> ids[m * BatchSize] !in b
  {
    var n := |ids|;
    var k := BatchCount(n);
    assert n == (n / BatchSize) * BatchSize + n % BatchSize;
    AsWrittenPanicsExactly(ids);
    SlicesShape(ids, k);
    var j := m * BatchSize;
    assert j % BatchSize == 0;
    AsWrittenCoverage(n, j);
    var batches := RequestsAsWritten(ids).value;
    forall b | b in batches
      ensures ids[j] !in b
    {
      var t :| 0 <= t < |batches| && batches[t] == b;
      var r := BatchRangeAsWritten(n, k, t);
      assert !InRange(r, j);
      OutsideSlice(ids, r.0, r.1, j);
    }
  }

  /** With distinct ids, an id outside a slice's range is not in the slice. */
  lemma OutsideSlice(ids: seq<string>, lo: nat, hi: nat, j: nat)
    requires forall a, b :: 0 <= a < b < |ids| ==> ids[a] != ids[b]
    requires lo <= hi <= |ids| && j < |ids| && !(lo <= j < hi)
    ensures ids[j] !in ids[lo..hi]
  {
  }

  /** Fifteen thousand distinct ids: the id at position 10000 is never requested. */
  lemma FifteenThousandIdsSkipOne(ids: seq<string>)
    requires |ids| == 15000
    requires forall a, b :: 0 <= a < b < |ids| ==> ids[a] != ids[b]
    ensures RequestsAsWritten(ids).Some?
    ensures forall b :: b in RequestsAsWritten(ids).value ==> ids[10000] !in b
  {
    AsWrittenSkipsId(ids, 1);
  }

  /** For more than 10000 ids, the last slice as written is empty exactly when the count leaves
      remainder 1 by 10000: it starts at 1 + 10000 * floor(n / 10000), which is then n. */
  lemma AsWrittenLastBatchEmpty(ids: seq<string>)
    requires |ids| > BatchSize
    ensures (&& RequestsAsWritten(ids).Some?
             && |RequestsAsWritten(ids).value| == BatchCount(|ids|)
             && RequestsAsWritten(ids).value[BatchCount(|ids|) - 1] == [])
        <==> |ids| % BatchSize == 1
  {
    var n := |ids|;
    var k := BatchCount(n);
    assert n == (n / BatchSize) * BatchSize + n % BatchSize;
    AsWrittenPanicsExactly(ids);
    if RequestsAsWritten(ids).Some? {
      SlicesShape(ids, k);
      var r := BatchRangeAsWritten(n, k, k - 1);
      assert r == (1 + (n / BatchSize) * BatchSize, n);
      assert |RequestsAsWritten(ids).value[k - 1]| == n - r.0;
    }
  }

  /** With more than 10000 ids and remainder 1 by 10000 (10001 ids, say), the last request as
      written names no ids, so it lists the whole registry: every registered device is fetched,
      whether or not the CSV names it. */
  lemma AsWrittenRemainderOneFetchesAll(source: SourceRegistry, ids: seq<string>, d: Device)
    requires |ids| > BatchSize && |ids| % BatchSize == 1
    requires source.failing == map[] && d in source.devices
    ensures RequestsAsWritten(ids).Some?
    ensures FetchAll(source, RequestsAsWritten(ids).value).Success?
    ensures d in FetchAll(source, RequestsAsWritten(ids).value).value
  {
    AsWrittenLastBatchEmpty(ids);
    var rs := RequestsAsWritten(ids).value;
    var init := rs[..|rs| - 1];
    assert rs == init + [[]];
    assert FetchAll(source, init).Success?;
    assert FetchAll(source, rs).value == FetchAll(source, init).value + source.devices;
  }

  /** The concatenation of a list of id lists. */
  function Concat(batches: seq<seq<string>>): seq<string>
  {
    if |batches| == 0 then [] else Concat(batches[..|batches| - 1]) + batches[|batches| - 1]
  }

  /** The batching the source evidently intends: up to 10000 ids in one request, more cut into
      consecutive non-empty slices of at most 10000 that together are the whole list. */
  method FetchRequests(deviceIds: seq<string>) returns (requests: seq<seq<string>>)
    ensures Concat(requests) == deviceIds
    ensures |deviceIds| <= BatchSize ==> requests == [deviceIds]
    ensures |deviceIds| > BatchSize ==> forall b :: b in requests ==> 0 < |b| <= BatchSize
    ensures |requests| == if |deviceIds| <= BatchSize then 1 else (|deviceIds| + BatchSize - 1) / BatchSize
  {
    if |deviceIds| <= BatchSize {
      assert Concat([deviceIds]) == Concat([]) + deviceIds;
      return [deviceIds];
    }
    var n := |deviceIds|;
    var maxIterations := (n + BatchSize - 1) / BatchSize;
    assert (maxIterations - 1) * BatchSize < n <= maxIterations * BatchSize;
    requests := [];
    var i := 0;
    while i < maxIterations
      invariant 0 <= i <= maxIterations
      invariant |requests| == i
      invariant Concat(requests) == deviceIds[..if i < maxIterations then i * BatchSize else n]
      invariant forall b :: b in requests ==> 0 < |b| <= BatchSize
    {
      var lo := i * BatchSize;
      var hi := if i == maxIterations - 1 then n else lo + BatchSize;
      assert lo < hi <= n;
      assert deviceIds[..hi] == deviceIds[..lo] + deviceIds[lo..hi];
      assert (requests + [deviceIds[lo..hi]])[..|requests|] == requests;
      requests := requests + [deviceIds[lo..hi]];
      i := i + 1;
      if i < maxIterations {
        assert hi == i * BatchSize;
      } else {
        assert hi == n;
      }
    }
    assert deviceIds[..n] == deviceIds;
  }

  /** The devices a run of ListDevices requests fetches, in request order, or the iteration
      error that ends the run. The run succeeds exactly when none of its requests fails. */
  function FetchAll(source: SourceRegistry, requests: seq<seq<string>>): (r: Result<seq<Device>, string>)
    ensures r.Success? <==> forall b :: b in requests ==> b !in source.failing
  {
    if |requests| == 0 then Success([])
    else
      assert requests == requests[..|requests| - 1] + [requests[|requests| - 1]];
      match FetchAll(source, requests[..|requests| - 1])
      case Failure(e) => Failure(e)
      case Success(prev) =>
        var l := ListDevices(source, requests[|requests| - 1]);
        if l.error.Some? then Failure(l.error.value) else Success(prev + l.devices)
  }

  /** One more request of a run that has not failed yet. */
  lemma FetchAllStep(source: SourceRegistry, requests: seq<seq<string>>, i: nat)
    requires i < |requests| && FetchAll(source, requests[..i]).Success?
    ensures requests[i] in source.failing ==>
      FetchAll(source, requests[..i + 1]) == Failure(source.failing[requests[i]].error)
    ensures requests[i] !in source.failing ==>
      FetchAll(source, requests[..i + 1]) == Success(FetchAll(source, requests[..i]).value + Selected(source, requests[i]))
  {
    assert requests[..i + 1][..i] == requests[..i];
    assert requests[..i + 1][i] == requests[i];
  }

  /** Once a request fails, the rest of the run is never reached. */
  lemma {:induction false} FetchAllFailurePersists(source: SourceRegistry, requests: seq<seq<string>>, j: nat)
    requires j <= |requests| && FetchAll(source, requests[..j]).Failure?
    ensures FetchAll(source, requests) == FetchAll(source, requests[..j])
    decreases |requests| - j
  {
    if j < |requests| {
      var init := requests[..|requests| - 1];
      assert init[..j] == requests[..j];
      FetchAllFailurePersists(source, init, j);
      assert requests[..|requests|] == requests;
    } else {
      assert requests[..j] == requests;
    }
  }

  /** When no request fails and each names at least one id, the devices fetched are exactly the
      registered devices whose id is among those requested. */
  lemma {:induction false} FetchAllExact(source: SourceRegistry, requests: seq<seq<string>>, d: Device)
    requires forall b :: b in requests ==> b !in source.failing && |b| > 0
    ensures FetchAll(source, requests).Success?
    ensures d in FetchAll(source, requests).value <==> d in source.devices && d.id in Concat(requests)
  {
    if |requests| > 0 {
      var init := requests[..|requests| - 1];
      var last := requests[|requests| - 1];
      assert requests == init + [last];
      FetchAllExact(source, init, d);
      SelectedExact(source, last, d);
      assert Concat(requests) == Concat(init) + last;
    }
  }

  /** A request without ids, as an empty CSV makes, fetches the whole registry. */
  lemma EmptyRequestFetchesAll(source: SourceRegistry)
    requires [] !in source.failing
    ensures FetchAll(source, [[]]) == Success(source.devices)
  {
    var requests: seq<seq<string>> := [[]];
    assert requests[..0] == [];
    assert ListDevices(source, requests[0]) == SourceListing(source.devices, None);
    assert [] + source.devices == source.devices;
  }

  /** fetchDevicesFromCSV with the corrected batching. It reports the requests it made: one for
      up to 10000 ids, otherwise consecutive non-empty slices of at most 10000 that together are
      the CSV list. The result is what those requests fetch, in order, or the first iteration
      error. Each request's shortfall warning is only printed. */
  method FetchDevicesFromCsv(source: SourceRegistry, deviceIds: seq<string>)
    returns (r: Result<seq<Device>, string>, requests: seq<seq<string>>)
    ensures Concat(requests) == deviceIds
    ensures |deviceIds| <= BatchSize ==> requests == [deviceIds]
    ensures |deviceIds| > BatchSize ==> forall b :: b in requests ==> 0 < |b| <= BatchSize
    ensures r == FetchAll(source, requests)
  {
    requests := FetchRequests(deviceIds);
    r := FetchBatches(source, requests);
  }

  /** The batch loop of fetchDevicesFromCSV: one fetchDevices per request, appending. */
  method FetchBatches(source: SourceRegistry, requests: seq<seq<string>>) returns (r: Result<seq<Device>, string>)
    ensures r == FetchAll(source, requests)
  {
    var devices: seq<Device> := [];
    var i := 0;
    while i < |requests|
      invariant 0 <= i <= |requests|
      invariant FetchAll(source, requests[..i]) == Success(devices)
    {
      var subset, _ := FetchDevices(source, requests[i]);
      FetchAllStep(source, requests, i);
      if subset.Failure? {
        FetchAllFailurePersists(source, requests, i + 1);
        return Failure(subset.error);
      }
      devices := devices + subset.value;
      i := i + 1;
    }
    assert requests[..i] == requests;
    return Success(devices);
  }

  /** The corrected CSV fetch of a non-empty CSV with no failing request: exactly the registered
      devices the CSV names come back. */
  lemma CsvFetchExact(source: SourceRegistry, ids: seq<string>, requests: seq<seq<string>>, d: Device)
    requires |ids| > 0 && Concat(requests) == ids
    requires |ids| <= BatchSize ==> requests == [ids]
    requires |ids| > BatchSize ==> forall b :: b in requests ==> 0 < |b| <= BatchSize
    requires forall b :: b in requests ==> b !in source.failing
    ensures FetchAll(source, requests).Success?
    ensures d in FetchAll(source, requests).value <==> d in source.devices && d.id in ids
  {
    FetchAllExact(source, requests, d);
  }

  // ---------------------------------------------------------------- updateDevice

  /** The run's switches that the per-device task reads. */
  datatype Settings = Settings(updatePublicKeys: bool, skipConfig: bool)

  /** The fields every patch overwrites. */
  const MaskFields: seq<string> := ["blocked", "metadata", "logLevel", "gatewayConfig.gatewayAuthMethod"]

  /** The fields a patch overwrites; credentials, first, only when public keys are updated. */
  function MaskPaths(updatePublicKeys: bool): (paths: seq<string>)
    ensures "credentials" in paths <==> updatePublicKeys
    ensures forall p :: p in MaskFields ==> p in paths
  {
    (if updatePublicKeys then ["credentials"] else []) + MaskFields
  }

  /** The update mask text sent with the patch: the fields, comma-separated. */
  function UpdateMask(updatePublicKeys: bool): string
  {
    Join(MaskPaths(updatePublicKeys), ",")
  }

  lemma JoinCons(p: string, rest: seq<string>, sep: string)
    requires |rest| > 0
    ensures Join([p] + rest, sep) == p + sep + Join(rest, sep)
  {
    assert ([p] + rest)[1..] == rest;
  }

  /** The two mask texts differ only by a leading "credentials,"; the one without it starts with
      the blocked field. */
  lemma UpdateMaskText()
    ensures UpdateMask(true) == "credentials," + UpdateMask(false)
    ensures HasPrefix(UpdateMask(false), "blocked,")
  {
    JoinCons("credentials", MaskFields, ",");
    assert MaskPaths(true) == ["credentials"] + MaskFields;
    assert MaskPaths(false) == MaskFields;
    assert MaskFields == ["blocked"] + MaskFields[1..];
    JoinCons("blocked", MaskFields[1..], ",");
  }

  /** The state, error and call trace of a sequence of registry calls. */
  datatype Step = Step(reg: Registry, error: Option<string>, calls: seq<Call>)

  /** The patch updateDevice sends for the transformed record `cb`. */
  function PatchOf(reg: Registry, cb: CbDevice, s: Settings, f: Faults): (Registry, Option<string>)
  {
    Patch(reg, cb.id, cb, MaskPaths(s.updatePublicKeys), f)
  }

  /** updateDevice, given the record transform builds for the device (`cb`, whose id and config
      payload are the device's): patch with the mask, then, unless config pushes are skipped, push
      the config payload. A patch error returns before any config push. */
  function UpdateDevice(reg: Registry, cb: CbDevice, s: Settings, f: Faults): (r: Step)
    ensures |r.calls| >= 1 && r.calls[0] == PatchCall(cb.id, UpdateMask(s.updatePublicKeys))
    ensures ModifyConfigCall(cb.id) in r.calls <==> !s.skipConfig && PatchOf(reg, cb, s, f).1.None?
    ensures PatchOf(reg, cb, s, f).1.Some? ==> r.error == PatchOf(reg, cb, s, f).1 && r.reg == reg
    ensures reg.devices.Keys == r.reg.devices.Keys
  {
    var patched := PatchOf(reg, cb, s, f);
    var calls := [PatchCall(cb.id, UpdateMask(s.updatePublicKeys))];
    if patched.1.Some? then Step(reg, patched.1, calls)
    else if s.skipConfig then Step(patched.0, None, calls)
    else
      var pushed := ModifyConfig(patched.0, cb.id, cb.config.binaryData, f);
      Step(pushed.0, pushed.1, calls + [ModifyConfigCall(cb.id)])
  }

  /** The record an existing destination device holds after a successful updateDevice: the masked
      fields come from the source, and the config payload too unless config pushes are skipped. */
  function Upserted(current: CbDevice, cb: CbDevice, s: Settings): CbDevice
  {
    var patched := ApplyMask(current, cb, MaskPaths(s.updatePublicKeys));
    if s.skipConfig then patched else patched.(config := patched.config.(binaryData := cb.config.binaryData))
  }

  /** Without faults, updating an existing device succeeds and leaves exactly the upserted record;
      updating a missing one fails with not-found and changes nothing. */
  lemma UpdateDeviceNoFaults(reg: Registry, cb: CbDevice, s: Settings)
    ensures var r := UpdateDevice(reg, cb, s, NoFaults);
      && (cb.id in reg.devices ==>
            r.error.None? && r.reg == reg.(devices := reg.devices[cb.id := Upserted(reg.devices[cb.id], cb, s)]))
      && (cb.id in reg.devices ==>
            r.calls == [PatchCall(cb.id, UpdateMask(s.updatePublicKeys))] + (if s.skipConfig then [] else [ModifyConfigCall(cb.id)]))
      && (cb.id !in reg.devices ==> r.error == Some(NotFoundMessage) && r.reg == reg)
  {
  }

  // ---------------------------------------------------------------- the per-device task

  /** What the create call's error means to the task. */
  datatype CreateVerdict = CreateOk | CreateFailed | AlreadyExists

  /** A create error is "already exists" when its text mentions Error 409 and no response came
      back with a status other than 409. */
  function ClassifyCreate(err: Option<CallError>): CreateVerdict
  {
    if err.None? then CreateOk
    else if !Contains(err.value.message, "Error 409") then CreateFailed
    else if err.value.status.Some? && err.value.status.value != 409 then CreateFailed
    else AlreadyExists
  }

  /** The registry's own conflict error is recognised as "already exists". */
  lemma ConflictRecognised(status: Option<int>)
    requires status.None? || status == Some(409)
    ensures ClassifyCreate(Some(CallError(ConflictMessage, status))) == AlreadyExists
  {
    assert OccursAt("Error 409", "Error 409", 0);
    assert ConflictMessage == "googleapi: " + "Error 409" + ": Device already exists";
    ContainsExtended("googleapi: ", "Error 409", ": Device already exists", "Error 409");
  }

  /** The registry's not-found error mentions Error 404, which is what the callers test for. */
  lemma NotFoundRecognised()
    ensures Contains(NotFoundMessage, "Error 404")
  {
    assert OccursAt("Error 404", "Error 404", 0);
    assert NotFoundMessage == "googleapi: " + "Error 404" + ": Device not found";
    ContainsExtended("googleapi: ", "Error 404", ": Device not found", "Error 404");
  }

  /** A create error whose response carries a status other than 409 is a failure, whatever its
      text says; one whose text does not mention Error 409 is a failure too. */
  lemma NonConflictsFail(err: CallError)
    requires !Contains(err.message, "Error 409") || (err.status.Some? && err.status.value != 409)
    ensures ClassifyCreate(Some(err)) == CreateFailed
  {
  }

  /** The result a task sends back (the zero ErrorLog for success), with the registry after it
      and the calls it made. */
  datatype TaskResult = TaskResult(reg: Registry, log: ErrorLog, calls: seq<Call>)

  const CreateContext := "Error when Creating Device"
  const PatchContext := "Error when Patching Device"

  /** The task addDevicesToClearBlade submits for one device, given its transformed record `cb`:
      create; on "already exists", patch it (updateDevice); any other create error, or an error
      of updateDevice, is logged for the device. */
  function MigrateDevice(reg: Registry, cb: CbDevice, s: Settings, f: Faults): (r: TaskResult)
    ensures |r.calls| >= 1 && r.calls[0] == CreateCall(cb.id)
    ensures r.log == NoError || (r.log.deviceId == cb.id && HasError(r.log) && r.log.context in {CreateContext, PatchContext})
    ensures (exists m :: PatchCall(cb.id, m) in r.calls) <==> ClassifyCreate(Create(reg, cb, f).1) == AlreadyExists
    ensures reg.devices.Keys <= r.reg.devices.Keys
  {
    var created := Create(reg, cb, f);
    match ClassifyCreate(created.1)
    case CreateOk => TaskResult(created.0, NoError, [CreateCall(cb.id)])
    case CreateFailed => TaskResult(created.0, ErrorLog(CreateContext, Some(created.1.value.message), cb.id), [CreateCall(cb.id)])
    case AlreadyExists =>
      var u := UpdateDevice(created.0, cb, s, f);
      TaskResult(u.reg, if u.error.Some? then ErrorLog(PatchContext, u.error, cb.id) else NoError, [CreateCall(cb.id)] + u.calls)
  }

  /** A device new to the destination is created from its transformed record, and nothing else
      is called. */
  lemma MigrateNewDevice(reg: Registry, cb: CbDevice, s: Settings, f: Faults)
    requires cb.id !in reg.devices && cb.id !in f.create
    ensures var r := MigrateDevice(reg, cb, s, f);
      && r.log == NoError && r.calls == [CreateCall(cb.id)]
      && r.reg == reg.(devices := reg.devices[cb.id := cb])
  {
  }

  /** Upsert: a device already in the destination is reported as a conflict, then patched, and
      ends up as the upserted record with no error. */
  lemma MigrateExistingDevice(reg: Registry, cb: CbDevice, s: Settings)
    requires cb.id in reg.devices
    ensures var r := MigrateDevice(reg, cb, s, NoFaults);
      && r.log == NoError
      && r.calls == [CreateCall(cb.id), PatchCall(cb.id, UpdateMask(s.updatePublicKeys))] +
                    (if s.skipConfig then [] else [ModifyConfigCall(cb.id)])
      && r.reg == reg.(devices := reg.devices[cb.id := Upserted(reg.devices[cb.id], cb, s)])
  {
    var created := Create(reg, cb, NoFaults);
    assert created == (reg, Some(CallError(ConflictMessage, None)));
    ConflictRecognised(None);
    assert ClassifyCreate(created.1) == AlreadyExists;
    var u := UpdateDevice(reg, cb, s, NoFaults);
    UpdateDeviceNoFaults(reg, cb, s);
    assert MigrateDevice(reg, cb, s, NoFaults) == TaskResult(u.reg, NoError, [CreateCall(cb.id)] + u.calls);
  }

  /** A failing create that is not a conflict is logged with its own text and patches nothing; a
      conflict whose update fails is logged with the update's error. */
  lemma MigrateFailures(reg: Registry, cb: CbDevice, s: Settings, f: Faults)
    ensures var created := Create(reg, cb, f);
      var r := MigrateDevice(reg, cb, s, f);
      && (ClassifyCreate(created.1) == CreateFailed ==>
            r.log == ErrorLog(CreateContext, Some(created.1.value.message), cb.id) && r.calls == [CreateCall(cb.id)])
      && (ClassifyCreate(created.1) == AlreadyExists && UpdateDevice(created.0, cb, s, f).error.Some? ==>
            r.log == ErrorLog(PatchContext, UpdateDevice(created.0, cb, s, f).error, cb.id))
  {
  }

  lemma ApplyMaskIdempotent(current: CbDevice, from: CbDevice, mask: seq<string>)
    ensures ApplyMask(ApplyMask(current, from, mask), from, mask) == ApplyMask(current, from, mask)
  {
  }

  /** Without faults, running the task a second time leaves the destination as the first run
      left it: a resumed migration does not change an already migrated device, apart from the
      config version a second push creates, which the registry does not model. */
  lemma MigrateIdempotent(reg: Registry, cb: CbDevice, s: Settings)
    ensures var once := MigrateDevice(reg, cb, s, NoFaults).reg;
      MigrateDevice(once, cb, s, NoFaults).reg == once
  {
    var once := MigrateDevice(reg, cb, s, NoFaults).reg;
    var current := if cb.id in reg.devices then reg.devices[cb.id] else cb;
    if cb.id in reg.devices {
      MigrateExistingDevice(reg, cb, s);
      assert once == reg.(devices := reg.devices[cb.id := Upserted(current, cb, s)]);
    } else {
      MigrateNewDevice(reg, cb, s, NoFaults);
      UpsertedSelf(cb, s);
      assert once == reg.(devices := reg.devices[cb.id := Upserted(current, cb, s)]);
    }
    MigrateExistingDevice(once, cb, s);
    UpsertedIdempotent(current, cb, s);
  }

  /** Upserting a device's own record onto itself changes nothing. */
  lemma UpsertedSelf(cb: CbDevice, s: Settings)
    ensures Upserted(cb, cb, s) == cb
  {
  }

  /** Upserting the same record twice equals upserting it once. */
  lemma UpsertedIdempotent(current: CbDevice, cb: CbDevice, s: Settings)
    ensures Upserted(Upserted(current, cb, s), cb, s) == Upserted(current, cb, s)
  {
    ApplyMaskIdempotent(current, cb, MaskPaths(s.updatePublicKeys));
  }

  // ---------------------------------------------------------------- addDevicesToClearBlade

  /** The registry after, and the results of, the tasks for the transformed records `cbs`, one
      task per record. */
  function RunTasks(reg: Registry, cbs: seq<CbDevice>, s: Settings, f: Faults): (Registry, seq<ErrorLog>)
  {
    if |cbs| == 0 then (reg, [])
    else
      var before := RunTasks(reg, cbs[..|cbs| - 1], s, f);
      var t := MigrateDevice(before.0, cbs[|cbs| - 1], s, f);
      (t.reg, before.1 + [t.log])
  }

  /** addDevicesToClearBlade: one task per device, then one result received per device; results
      carrying an error are appended to the log, the others are counted as successes. */
  method AddDevicesToClearBlade(reg: Registry, devices: seq<Device>, s: Settings, f: Faults, errorLogs: seq<ErrorLog>)
    returns (reg': Registry, logs: seq<ErrorLog>, successfulCreates: nat)
    requires forall d :: d in devices ==> Transformable(d)
    ensures var run := RunTasks(reg, Utils.TransformAll(devices, s.updatePublicKeys), s, f);
      && reg' == run.0
      && logs == errorLogs + Seqs.Filter(run.1, HasError)
    ensures successfulCreates + (|logs| - |errorLogs|) == |devices|
  {
    var results;
    reg', results := SubmitTasks(reg, devices, s, f);
    logs, successfulCreates := ReceiveResults(results, errorLogs);
  }

  /** One more record: its task runs on the registry the earlier tasks left. */
  lemma RunTasksSnoc(reg: Registry, cbs: seq<CbDevice>, cb: CbDevice, s: Settings, f: Faults)
    ensures var before := RunTasks(reg, cbs, s, f);
      var t := MigrateDevice(before.0, cb, s, f);
      RunTasks(reg, cbs + [cb], s, f) == (t.reg, before.1 + [t.log])
  {
    assert (cbs + [cb])[..|cbs|] == cbs;
  }

  /** The submission loop: one task per device, in order. */
  method SubmitTasks(reg: Registry, devices: seq<Device>, s: Settings, f: Faults)
    returns (reg': Registry, results: seq<ErrorLog>)
    requires forall d :: d in devices ==> Transformable(d)
    ensures (reg', results) == RunTasks(reg, Utils.TransformAll(devices, s.updatePublicKeys), s, f)
    ensures |results| == |devices|
  {
    results := [];
    reg' := reg;
    var i := 0;
    while i < |devices|
      invariant 0 <= i <= |devices|
      invariant (reg', results) == RunTasks(reg, Utils.TransformAll(devices[..i], s.updatePublicKeys), s, f)
      invariant |results| == i
    {
      var cb := Utils.Transform(devices[i], s.updatePublicKeys);
      Utils.TransformAllSnoc(devices, s.updatePublicKeys, i);
      RunTasksSnoc(reg, Utils.TransformAll(devices[..i], s.updatePublicKeys), cb, s, f);
      var t := MigrateDevice(reg', cb, s, f);
      reg' := t.reg;
      results := results + [t.log];
      i := i + 1;
    }
    assert devices[..i] == devices;
  }

  /** The receive loop: results carrying an error are appended to the log, the others are counted
      as successes. */
  method ReceiveResults(results: seq<ErrorLog>, errorLogs: seq<ErrorLog>)
    returns (logs: seq<ErrorLog>, successfulCreates: nat)
    ensures logs == errorLogs + Seqs.Filter(results, HasError)
    ensures successfulCreates + |Seqs.Filter(results, HasError)| == |results|
  {
    logs := errorLogs;
    successfulCreates := 0;
    var j := 0;
    while j < |results|
      invariant 0 <= j <= |results|
      invariant logs == errorLogs + Seqs.Filter(results[..j], HasError)
      invariant successfulCreates + |Seqs.Filter(results[..j], HasError)| == j
    {
      Seqs.FilterSnoc(results[..j], results[j], HasError);
      assert results[..j + 1] == results[..j] + [results[j]];
      if HasError(results[j]) {
        logs := logs + [results[j]];
      } else {
        successfulCreates := successfulCreates + 1;
      }
      j := j + 1;
    }
    assert results[..j] == results;
  }

  /** The tasks' results arrive in any order; the tally does not depend on it: any arrival order
      yields the same logged failures, as a multiset, and the same number of successes. */
  lemma TallyOrderIrrelevant(results: seq<ErrorLog>, received: seq<ErrorLog>)
    requires multiset(results) == multiset(received)
    ensures multiset(Seqs.Filter(received, HasError)) == multiset(Seqs.Filter(results, HasError))
    ensures |received| - |Seqs.Filter(received, HasError)| == |results| - |Seqs.Filter(results, HasError)|
  {
    Seqs.FilterCountPermutation(results, received, HasError);
    assert |results| == |received| by {
      assert |multiset(results)| == |multiset(received)|;
    }
  }

  /** Without faults, every record ends up in the destination and no failure is logged. */
  lemma {:induction false} AllRecordsMigrated(reg: Registry, cbs: seq<CbDevice>, s: Settings)
    ensures forall cb :: cb in cbs ==> cb.id in RunTasks(reg, cbs, s, NoFaults).0.devices
    ensures reg.devices.Keys <= RunTasks(reg, cbs, s, NoFaults).0.devices.Keys
    ensures Seqs.Filter(RunTasks(reg, cbs, s, NoFaults).1, HasError) == []
  {
    if |cbs| > 0 {
      var init := cbs[..|cbs| - 1];
      var cb := cbs[|cbs| - 1];
      assert cbs == init + [cb];
      AllRecordsMigrated(reg, init, s);
      AllRecordsMigratedStep(reg, init, cb, s);
    }
  }

  lemma AllRecordsMigratedStep(reg: Registry, init: seq<CbDevice>, cb: CbDevice, s: Settings)
    requires forall c :: c in init ==> c.id in RunTasks(reg, init, s, NoFaults).0.devices
    requires reg.devices.Keys <= RunTasks(reg, init, s, NoFaults).0.devices.Keys
    requires Seqs.Filter(RunTasks(reg, init, s, NoFaults).1, HasError) == []
    ensures forall c :: c in init + [cb] ==> c.id in RunTasks(reg, init + [cb], s, NoFaults).0.devices
    ensures reg.devices.Keys <= RunTasks(reg, init + [cb], s, NoFaults).0.devices.Keys
    ensures Seqs.Filter(RunTasks(reg, init + [cb], s, NoFaults).1, HasError) == []
  {
    var before := RunTasks(reg, init, s, NoFaults);
    RunTasksSnoc(reg, init, cb, s, NoFaults);
    var t := MigrateDevice(before.0, cb, s, NoFaults);
    if cb.id in before.0.devices {
      MigrateExistingDevice(before.0, cb, s);
    } else {
      MigrateNewDevice(before.0, cb, s, NoFaults);
    }
    assert t.log == NoError && cb.id in t.reg.devices && before.0.devices.Keys <= t.reg.devices.Keys;
    Seqs.FilterSnoc(before.1, NoError, HasError);
  }

  /** Without faults, every device ends up in the destination and no failure is logged. */
  lemma AllMigratedWithoutFaults(reg: Registry, devices: seq<Device>, s: Settings)
    requires forall d :: d in devices ==> Transformable(d)
    ensures var run := RunTasks(reg, Utils.TransformAll(devices, s.updatePublicKeys), s, NoFaults);
      && (forall d :: d in devices ==> d.id in run.0.devices)
      && reg.devices.Keys <= run.0.devices.Keys
      && Seqs.Filter(run.1, HasError) == []
  {
    var cbs := Utils.TransformAll(devices, s.updatePublicKeys);
    AllRecordsMigrated(reg, cbs, s);
    forall d | d in devices ensures d.id in RunTasks(reg, cbs, s, NoFaults).0.devices {
      var k :| 0 <= k < |devices| && devices[k] == d;
      assert cbs[k] in cbs;
    }
  }
}
