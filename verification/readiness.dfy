/** The one-shot readiness cell behind WaitForReadyAsync and OnGuildDownloadCompleted. */
module Readiness {
  import opened Wrappers
  import opened Entities

  /** The label the DSharpPlus bridge reports for itself. */
  const Label := "DSharpPlus"

  /** What a wait that was not cancelled observes: still suspended, or the stored identity. */
  datatype ReadyState = Pending | Ready(info: ClientInformation)

  /** The identity built when the guild download completes. */
  function ClientInformationOf(currentUserId: uint64, connectedShardCount: int): ClientInformation {
    ClientInformation(Label, currentUserId, connectedShardCount)
  }

  /** TrySetResult on the cell: the first result stored wins, later ones are ignored. */
  function TrySetResult(cell: Option<ClientInformation>, info: ClientInformation): (r: Option<ClientInformation>)
    ensures r.Some?
    ensures cell.Some? ==> r == cell
    ensures cell.None? ==> r == Some(info)
  {
    if cell.Some? then cell else Some(info)
  }

  /** A wait on the cell; the cancellation token is checked before the task is looked at. */
  function AwaitReady(cell: Option<ClientInformation>, cancelled: bool): (r: Cancellable<ReadyState>)
    ensures r.Completed? <==> !cancelled
    ensures r.Completed? && r.value.Ready? ==> cell == Some(r.value.info)
    ensures r.Completed? && r.value.Pending? ==> cell.None?
  {
    if cancelled then Cancelled
    else if cell.Some? then Completed(Ready(cell.value))
    else Completed(Pending)
  }

  /** One interaction with the cell, as the gateway and the audio runtime issue them. */
  datatype ReadinessCall =
    | GuildDownloadCompleted(currentUserId: uint64, connectedShardCount: int)
    | Wait(cancelled: bool)

  /** The cell after a sequence of calls, starting from an unset cell. */
  function CellAfter(calls: seq<ReadinessCall>): Option<ClientInformation> {
    if calls == [] then None
    else
      var cell := CellAfter(calls[..|calls| - 1]);
      match calls[|calls| - 1]
      case GuildDownloadCompleted(u, n) => TrySetResult(cell, ClientInformationOf(u, n))
      case Wait(_) => cell
  }

  /** What each wait of a sequence of calls observes, in order. */
  function WaitOutcomes(calls: seq<ReadinessCall>): seq<Cancellable<ReadyState>> {
    if calls == [] then []
    else
      var init := calls[..|calls| - 1];
      match calls[|calls| - 1]
      case GuildDownloadCompleted(_, _) => WaitOutcomes(init)
      case Wait(cancelled) => WaitOutcomes(init) + [AwaitReady(CellAfter(init), cancelled)]
  }

  /** The identity of the earliest guild-download completion, if any. */
  function FirstSignal(calls: seq<ReadinessCall>): Option<ClientInformation> {
    if calls == [] then None
    else
      match calls[0]
      case GuildDownloadCompleted(u, n) => Some(ClientInformationOf(u, n))
      case Wait(_) => FirstSignal(calls[1..])
  }

  predicate IsReady(o: Cancellable<ReadyState>) {
    o.Completed? && o.value.Ready?
  }

  predicate IsPending(o: Cancellable<ReadyState>) {
    o.Completed? && o.value.Pending?
  }

  /** Once a signal has been seen, later calls do not change the first one. */
  lemma {:induction false} FirstSignalPrefix(a: seq<ReadinessCall>, b: seq<ReadinessCall>)
    requires FirstSignal(a).Some?
    ensures FirstSignal(a + b) == FirstSignal(a)
  {
    assert (a + b)[0] == a[0];
    if a[0].Wait? {
      assert (a + b)[1..] == a[1..] + b;
      FirstSignalPrefix(a[1..], b);
    }
  }

  /** Appending one call to calls with no signal yet. */
  lemma {:induction false} FirstSignalAppendToUnset(a: seq<ReadinessCall>, c: ReadinessCall)
    requires FirstSignal(a).None?
    ensures FirstSignal(a + [c]) == if c.GuildDownloadCompleted? then Some(ClientInformationOf(c.currentUserId, c.connectedShardCount)) else None
  {
    if a == [] {
      assert a + [c] == [c];
    } else {
      assert (a + [c])[0] == a[0];
      assert (a + [c])[1..] == a[1..] + [c];
      FirstSignalAppendToUnset(a[1..], c);
    }
  }

  /** The cell always holds the identity of the first completion: the first write wins. */
  lemma {:induction false} CellIsFirstSignal(calls: seq<ReadinessCall>)
    ensures CellAfter(calls) == FirstSignal(calls)
  {
    if calls != [] {
      var init := calls[..|calls| - 1];
      CellIsFirstSignal(init);
      assert calls == init + [calls[|calls| - 1]];
      if FirstSignal(init).Some? {
        FirstSignalPrefix(init, [calls[|calls| - 1]]);
      } else {
        FirstSignalAppendToUnset(init, calls[|calls| - 1]);
      }
    }
  }

  /** Every wait that sees the cell ready sees the cell's present value. */
  lemma {:induction false} ReadyOutcomesMatchCell(calls: seq<ReadinessCall>)
    ensures forall k :: 0 <= k < |WaitOutcomes(calls)| && IsReady(WaitOutcomes(calls)[k]) ==>
              CellAfter(calls) == Some(WaitOutcomes(calls)[k].value.info)
  {
    if calls != [] {
      ReadyOutcomesMatchCell(calls[..|calls| - 1]);
    }
  }

  /** No two waiters observe different identities: every ready wait sees the first completion's. */
  lemma ReadyOutcomesAgree(calls: seq<ReadinessCall>)
    ensures forall k :: 0 <= k < |WaitOutcomes(calls)| && IsReady(WaitOutcomes(calls)[k]) ==>
              FirstSignal(calls) == Some(WaitOutcomes(calls)[k].value.info)
  {
    ReadyOutcomesMatchCell(calls);
    CellIsFirstSignal(calls);
  }

  /** Readiness never regresses: after one wait has seen the cell ready, no later wait is pending. */
  lemma {:induction false} NoPendingAfterReady(calls: seq<ReadinessCall>)
    ensures forall k, l :: 0 <= k < l < |WaitOutcomes(calls)| && IsReady(WaitOutcomes(calls)[k]) ==>
              !IsPending(WaitOutcomes(calls)[l])
  {
    if calls != [] {
      var init := calls[..|calls| - 1];
      NoPendingAfterReady(init);
      ReadyOutcomesMatchCell(init);
    }
  }

  /** A wait that is not cancelled, issued after a completion, sees the identity of the first completion. */
  lemma WaitAfterSignalIsReady(pre: seq<ReadinessCall>, u: uint64, n: int, post: seq<ReadinessCall>)
    ensures var outs := WaitOutcomes(pre + [GuildDownloadCompleted(u, n)] + post + [Wait(false)]);
            |outs| > 0 &&
            outs[|outs| - 1] == Completed(Ready(
              if FirstSignal(pre).Some? then FirstSignal(pre).value else ClientInformationOf(u, n)))
  {
    var signalled := pre + [GuildDownloadCompleted(u, n)];
    var calls := signalled + post + [Wait(false)];
    assert calls[..|calls| - 1] == signalled + post;
    if FirstSignal(pre).Some? {
      FirstSignalPrefix(pre, [GuildDownloadCompleted(u, n)]);
    } else {
      FirstSignalAppendToUnset(pre, GuildDownloadCompleted(u, n));
    }
    FirstSignalPrefix(signalled, post);
    CellIsFirstSignal(signalled + post);
  }

  /** Before any completion, a wait that is not cancelled stays pending. */
  lemma {:induction false} WaitBeforeSignalIsPending(calls: seq<ReadinessCall>)
    requires forall i :: 0 <= i < |calls| ==> calls[i].Wait?
    ensures var outs := WaitOutcomes(calls + [Wait(false)]);
            |outs| > 0 && outs[|outs| - 1] == Completed(Pending)
  {
    assert (calls + [Wait(false)])[..|calls|] == calls;
    CellUnsetWithoutSignal(calls);
  }

  lemma {:induction false} CellUnsetWithoutSignal(calls: seq<ReadinessCall>)
    requires forall i :: 0 <= i < |calls| ==> calls[i].Wait?
    ensures CellAfter(calls) == None
  {
    if calls != [] {
      CellUnsetWithoutSignal(calls[..|calls| - 1]);
    }
  }
}
