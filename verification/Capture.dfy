/** The bounded in-process capture server (internal/runner/capture.go). Every handler runs under one
    mutex, so any interleaving of concurrent calls is some sequence of whole calls. */
module Capture {
  import opened Signals

  const MAX_MESSAGE_BYTES := 16 * 1024 * 1024
  const MAX_CAPTURE_BYTES := 64 * 1024 * 1024
  const MAX_CAPTURE_ITEMS := 100000
  const MAX_CAPTURE_REQUESTS := 10000

  /** One export: its encoded size, its item count and the resource blocks it carries. */
  datatype Request<T> = Request(signal: Signal, size: nat, items: nat, resources: seq<T>)

  /** Everything that can reach the sink from outside. */
  datatype Event<T> =
    | Export(request: Request<T>)
    | RpcEnded(failed: bool, resourceExhausted: bool)
    | ServeFailed
    | ShutdownTimedOut

  // ----- sums over requests -----

  function Sizes<T>(rs: seq<Request<T>>): nat
  {
    if rs == [] then 0 else Sizes(rs[..|rs| - 1]) + rs[|rs| - 1].size
  }

  function Items<T>(rs: seq<Request<T>>): nat
  {
    if rs == [] then 0 else Items(rs[..|rs| - 1]) + rs[|rs| - 1].items
  }

  /** The resource blocks of one signal, in order of arrival. */
  function Blocks<T>(rs: seq<Request<T>>, signal: Signal): seq<T>
  {
    if rs == [] then [] else
    var last := rs[|rs| - 1];
    Blocks(rs[..|rs| - 1], signal) + if last.signal == signal then last.resources else []
  }

  lemma Append<T>(rs: seq<Request<T>>, r: Request<T>)
    ensures Sizes(rs + [r]) == Sizes(rs) + r.size
    ensures Items(rs + [r]) == Items(rs) + r.items
    ensures forall signal ::
              Blocks(rs + [r], signal) == Blocks(rs, signal) + if r.signal == signal then r.resources else []
  {
    assert (rs + [r])[..|rs|] == rs;
  }

  predicate ExceedsLimits(r: nat, sizes: nat, itemTotal: nat, items: nat, requests: nat)
  {
    r > MAX_MESSAGE_BYTES || sizes + r > MAX_CAPTURE_BYTES ||
    itemTotal + items > MAX_CAPTURE_ITEMS || requests + 1 > MAX_CAPTURE_REQUESTS
  }

  /** The requests together stay inside every limit. */
  ghost predicate Fits<T>(rs: seq<Request<T>>)
  {
    Sizes(rs) <= MAX_CAPTURE_BYTES && Items(rs) <= MAX_CAPTURE_ITEMS && |rs| <= MAX_CAPTURE_REQUESTS &&
    forall r :: r in rs ==> r.size <= MAX_MESSAGE_BYTES
  }

  lemma FitsAppend<T>(rs: seq<Request<T>>, r: Request<T>)
    ensures Fits(rs + [r]) <==> Fits(rs) && !ExceedsLimits(r.size, Sizes(rs), Items(rs), r.items, |rs|)
  {
    hide Sizes, Items, Blocks;
    Append(rs, r);
    if Fits(rs + [r]) {
      assert forall x :: x in rs ==> x in rs + [r];
      assert r in rs + [r];
    }
  }

  /** At most 64 MiB in all and 16 MiB in one request, at most 100000 items and 10000 requests. */
  lemma FitsMeans<T>(rs: seq<Request<T>>)
    ensures Fits(rs) <==>
            Sizes(rs) <= 67108864 && Items(rs) <= 100000 && |rs| <= 10000 && forall r :: r in rs ==> r.size <= 16777216
  {
  }

  /** No call ended in an error, the server kept serving and stopped in time. */
  predicate Quiet<T>(e: Event<T>)
  {
    e.Export? || (e.RpcEnded? && !e.failed)
  }

  predicate AllQuiet<T>(events: seq<Event<T>>)
  {
    forall i :: 0 <= i < |events| ==> Quiet(events[i])
  }

  /** The channel closed on the first failure; closing it twice would panic. */
  class Channel {
    var closed: bool

    constructor ()
      ensures !closed
    {
      closed := false;
    }

    method Close()
      requires !closed
      modifies this
      ensures closed
    {
      closed := true;
    }
  }

  class CaptureSink<T> {
    var bytes: nat
    var items: nat
    var requests: nat
    var failure: string
    const failed: Channel
    var logs: seq<T>
    var traces: seq<T>
    var metrics: seq<T>
    /** Every request a handler was called with, and those it accepted. */
    ghost var delivered: seq<Request<T>>
    ghost var accepted: seq<Request<T>>

    /** Counters are sums over the accepted requests and within the limits, stored data is their blocks,
        the channel is closed iff a failure is recorded, what was accepted is a prefix of what was delivered,
        and without a failure nothing was refused. */
    ghost predicate Valid()
      reads this, failed
    {
      bytes == Sizes(accepted) && items == Items(accepted) && requests == |accepted| && Fits(accepted) &&
      logs == Blocks(accepted, Logs) && traces == Blocks(accepted, Traces) && metrics == Blocks(accepted, Metrics) &&
      (failed.closed <==> failure != "") &&
      accepted <= delivered && (failure == "" ==> accepted == delivered)
    }

    constructor ()
      ensures Valid() && failure == "" && delivered == [] && fresh(failed)
    {
      failed := new Channel();
      bytes, items, requests, failure := 0, 0, 0, "";
      logs, traces, metrics, delivered, accepted := [], [], [], [], [];
    }

    /** The first category wins; the channel is closed with it and never again. */
    method FailLocked(category: string)
      requires Valid() && category != ""
      modifies this`failure, failed
      ensures Valid() && failure == if old(failure) == "" then category else old(failure)
    {
      if failure == "" {
        failure := category;
        failed.Close();
      }
    }

    /** Admits a request or records why not. The blocks are stored by the caller, so the sums are stated
        here and Valid is restored there. */
    method Reserve(size: nat, count: nat) returns (ok: bool)
      requires Valid()
      modifies this`bytes, this`items, this`requests, this`failure, failed
      ensures ok <==> old(failure) == "" && !ExceedsLimits(size, old(bytes), old(items), count, old(requests))
      ensures ok ==> bytes == old(bytes) + size && items == old(items) + count && requests == old(requests) + 1 &&
                     failure == "" && !failed.closed
      ensures !ok ==> bytes == old(bytes) && items == old(items) && requests == old(requests) &&
                      failure == (if old(failure) == "" then "capture_limit" else old(failure)) && failed.closed
    {
      if failure != "" {
        return false;
      }
      if ExceedsLimits(size, bytes, items, count, requests) {
        FailLocked("capture_limit");
        return false;
      }
      bytes := bytes + size;
      items := items + count;
      requests := requests + 1;
      return true;
    }

    /** The three Export handlers: reserve, then move the blocks to the end of the signal's data. */
    method ExportRequest(r: Request<T>) returns (ok: bool)
      requires Valid()
      modifies this, failed
      ensures Valid() && delivered == old(delivered) + [r]
      ensures ok <==> old(failure) == "" && Fits(old(accepted) + [r])
      ensures accepted == if ok then old(accepted) + [r] else old(accepted)
      ensures failure == if ok || old(failure) != "" then old(failure) else "capture_limit"
    {
      hide Fits, ExceedsLimits, Blocks, Sizes, Items;
      Append(accepted, r);
      FitsAppend(accepted, r);
      ok := Reserve(r.size, r.items);
      delivered := delivered + [r];
      if ok {
        accepted := accepted + [r];
        match r.signal {
          case Logs => logs := logs + r.resources;
          case Traces => traces := traces + r.resources;
          case Metrics => metrics := metrics + r.resources;
        }
      }
    }

    method HandleRpc(rpcFailed: bool, resourceExhausted: bool)
      requires Valid()
      modifies this`failure, failed
      ensures Valid()
      ensures failure == if !rpcFailed || old(failure) != "" then old(failure)
                         else if resourceExhausted then "capture_limit" else "capture_transport"
    {
      if rpcFailed {
        FailLocked(if resourceExhausted then "capture_limit" else "capture_transport");
      }
    }

    method Handle(e: Event<T>)
      requires Valid()
      modifies this, failed
      ensures Valid() && delivered == old(delivered) + Exported(e) && old(accepted) <= accepted
      ensures old(failure) != "" ==> accepted == old(accepted)
      ensures failure == "" ==> accepted == old(accepted) + Exported(e)
      ensures failure == Cause(old(failure), old(accepted), e)
    {
      hide Fits, ExceedsLimits;
      match e {
        case Export(r) => var _ := ExportRequest(r);
        case RpcEnded(rpcFailed, exhausted) => HandleRpc(rpcFailed, exhausted);
        case ServeFailed => FailLocked("capture_server");
        case ShutdownTimedOut => FailLocked("capture_shutdown");
      }
    }

    /** Any history of calls: what was delivered is stored in full as long as no failure is recorded; one is
        recorded exactly when a call or the server failed or the requests outgrew a limit, and it never changes. */
    method Serve(events: seq<Event<T>>)
      requires Valid()
      modifies this, failed
      ensures Valid() && delivered == old(delivered) + Exports(events) && old(accepted) <= accepted
      ensures old(failure) != "" ==> failure == old(failure) && accepted == old(accepted)
      ensures failure == "" ==> accepted == old(accepted) + Exports(events)
      ensures failure == "" <==> old(failure) == "" && AllQuiet(events) && Fits(old(accepted) + Exports(events))
      ensures failure == "" || old(failure) != "" || failure in Categories
    {
      assert Fits(accepted + Exports(events[..0])) by { assert accepted + [] == accepted; }
      hide Valid, Fits, Exports, Exported, AllQuiet, Quiet, Categories, Cause;
      NothingYet(events);
      for i := 0 to |events|
        invariant Valid() && delivered == old(delivered) + Exports(events[..i]) && old(accepted) <= accepted
        invariant old(failure) != "" ==> failure == old(failure) && accepted == old(accepted)
        invariant failure == "" ==> accepted == old(accepted) + Exports(events[..i])
        invariant failure == "" <==>
          old(failure) == "" && AllQuiet(events[..i]) && Fits(old(accepted) + Exports(events[..i]))
        invariant failure == "" || old(failure) != "" || failure in Categories
      {
        ExportsGrow(events, i, old(accepted));
        ExportsGrow(events, i, old(delivered));
        CauseFacts(failure, accepted, events[i]);
        Handle(events[i]);
      }
      assert events[..|events|] == events;
    }
  }

  /** The failure recorded after an event: the first one stands. */
  ghost function Cause<T>(failure: string, accepted: seq<Request<T>>, e: Event<T>): string
  {
    if failure != "" then failure else
    match e
    case Export(r) => if Fits(accepted + [r]) then "" else "capture_limit"
    case RpcEnded(rpcFailed, exhausted) =>
      if !rpcFailed then "" else if exhausted then "capture_limit" else "capture_transport"
    case ServeFailed => "capture_server"
    case ShutdownTimedOut => "capture_shutdown"
  }

  lemma CauseFacts<T>(failure: string, accepted: seq<Request<T>>, e: Event<T>)
    ensures var next := Cause(failure, accepted, e);
            (failure != "" ==> next == failure) && (next == "" || failure != "" || next in Categories) &&
            (next == "" <==> failure == "" && Quiet(e) && (e.Export? ==> Fits(accepted + [e.request])))
  {
    hide Fits;
  }

  /** The failure recorded after a history of events, starting from an empty sink. */
  ghost function FailureAfter<T>(events: seq<Event<T>>): string
  {
    if events == [] then "" else
    var before := events[..|events| - 1];
    Cause(FailureAfter(before), Exports(before), events[|events| - 1])
  }

  /** A failure is recorded exactly when a call or the server failed or the requests outgrew a limit. */
  lemma {:induction false} FailsIff<T>(events: seq<Event<T>>)
    ensures FailureAfter(events) == "" <==> AllQuiet(events) && Fits(Exports(events))
    ensures FailureAfter(events) == "" || FailureAfter(events) in Categories
  {
    hide Fits, AllQuiet;
    if events == [] {
      NothingYet(events);
      NothingFits<T>();
    } else {
      var i := |events| - 1;
      assert events[..i + 1] == events;
      assert events[..|events|] == events;
      assert [] + Exports(events[..i]) == Exports(events[..i]) && [] + Exports(events) == Exports(events);
      FailsIff(events[..i]);
      ExportsGrow(events, i, []);
    }
  }

  lemma NothingFits<T>()
    ensures Fits<T>([])
  {
  }

  const Categories := {"capture_limit", "capture_transport", "capture_server", "capture_shutdown"}

  function Exported<T>(e: Event<T>): seq<Request<T>>
  {
    if e.Export? then [e.request] else []
  }

  function Exports<T>(events: seq<Event<T>>): seq<Request<T>>
  {
    if events == [] then [] else Exports(events[..|events| - 1]) + Exported(events[|events| - 1])
  }

  lemma NothingYet<T>(events: seq<Event<T>>)
    ensures AllQuiet(events[..0]) && Exports(events[..0]) == []
  {
  }

  lemma ExportsGrow<T>(events: seq<Event<T>>, i: nat, base: seq<Request<T>>)
    requires i < |events|
    ensures AllQuiet(events[..i + 1]) <==> AllQuiet(events[..i]) && Quiet(events[i])
    ensures Exports(events[..i + 1]) == Exports(events[..i]) + Exported(events[i])
    ensures base + Exports(events[..i + 1]) == base + Exports(events[..i]) + Exported(events[i])
    ensures !events[i].Export? ==> base + Exports(events[..i + 1]) == base + Exports(events[..i])
    ensures events[i].Export? ==> base + Exports(events[..i + 1]) == base + Exports(events[..i]) + [events[i].request]
    ensures Fits(base + Exports(events[..i + 1])) ==> Fits(base + Exports(events[..i]))
  {
    hide Fits, ExceedsLimits;
    assert events[..i + 1] == events[..i] + [events[i]];
    assert events[..i + 1][..i] == events[..i];
    if events[i].Export? {
      FitsAppend(base + Exports(events[..i]), events[i].request);
    }
  }
}
