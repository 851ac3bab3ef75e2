/**
 * The observable side of a store operation, kept as an ordered log:
 * requests handed to the transport, the toast notifications shown around
 * them, and writes to a busy flag. The busy-flag lemmas let a store prove
 * that every request it sends leaves while its flag is up, and that the
 * flag is down again once the operation has settled.
 */
module Lifecycle {
  import opened Http
  import ApiClient

  /** What the toast shows: the pending label, then a success label or a failure text. */
  datatype ToastEvent = Loading(caption: string) | Succeeded(caption: string) | Failed(text: string)

  datatype Effect =
    | Busy(flag: bool)                // a write to the store's busy flag
    | Sent(config: ApiClient.Config)  // a request handed to `apiClient`'s axios call
    | Fetched(init: FetchInit)        // a request handed to `fetch`
    | Toast(event: ToastEvent)
  {
    predicate IsRequest() {
      Sent? || Fetched?
    }
  }

  /** The toast's failure text: the message of an `Error`, else the operation's fallback. */
  function ErrorText(t: Thrown, fallback: string): (s: string)
    ensures t.ErrorValue? ==> s == t.message
    ensures t.NonError? ==> s == fallback
  {
    match t
    case ErrorValue(message) => message
    case NonError(_) => fallback
  }

  /** The toast event that ends an operation settling with `r`. */
  function SettledToast<T>(r: Result<T>, success: string, fallback: string): (e: ToastEvent)
    ensures e.Succeeded? <==> r.Returned?
    ensures e.Succeeded? ==> e.caption == success
    ensures e.Failed? ==> e.text == ErrorText(r.thrown, fallback)
    ensures !e.Loading?
  {
    match r
    case Returned(_) => Succeeded(success)
    case Threw(t) => Failed(ErrorText(t, fallback))
  }

  /**
   * One operation with a guaranteed-cleanup busy flag: raise the flag,
   * send, show the pending toast, lower the flag, show the outcome.
   */
  function Bracketed(request: Effect, loading: string, settled: ToastEvent): seq<Effect>
  {
    [Busy(true), request, Toast(Loading(loading)), Busy(false), Toast(settled)]
  }

  // A proof aid: appending the bracket's steps one group at a time appends the bracket.
  lemma BracketedInSteps(log: seq<Effect>, request: Effect, loading: string, settled: ToastEvent)
    ensures log + [Busy(true)] + [request, Toast(Loading(loading))] + [Busy(false), Toast(settled)]
         == log + Bracketed(request, loading, settled)
  {
  }

  /** The busy flag after the log, starting from `init`: its last write, if any. */
  function BusyAfter(log: seq<Effect>, init: bool): bool
  {
    if log == [] then init
    else if log[|log| - 1].Busy? then log[|log| - 1].flag
    else BusyAfter(log[..|log| - 1], init)
  }

  /** Every request in the log was sent while the busy flag was up. */
  ghost predicate RequestsWhileBusy(log: seq<Effect>, init: bool)
  {
    forall i :: 0 <= i < |log| && log[i].IsRequest() ==> BusyAfter(log[..i], init)
  }

  /** Replaying two logs one after the other: the second starts where the first left the flag. */
  lemma {:induction false} BusyAfterAppend(a: seq<Effect>, b: seq<Effect>, init: bool)
    ensures BusyAfter(a + b, init) == BusyAfter(b, BusyAfter(a, init))
    decreases |b|
  {
    if b == [] {
      assert a + b == a;
    } else {
      var n := |a + b|;
      assert (a + b)[n - 1] == b[|b| - 1];
      assert (a + b)[..n - 1] == a + b[..|b| - 1];
      BusyAfterAppend(a, b[..|b| - 1], init);
    }
  }

  /** A busy-flag write decides the flag, whatever came before it. */
  lemma BusyAfterWrite(log: seq<Effect>, flag: bool, init: bool)
    ensures BusyAfter(log + [Busy(flag)], init) == flag
  {
  }

  /**
   * A request, its loading toast and its outcome toast write no busy flag,
   * so they leave the flag where the log before them left it.
   */
  lemma BusyAfterQuiet(log: seq<Effect>, request: Effect, loading: ToastEvent, settled: ToastEvent, init: bool)
    requires request.IsRequest()
    ensures BusyAfter(log + [request, Toast(loading)] + [Toast(settled)], init) == BusyAfter(log, init)
  {
    var one := log + [request];
    var two := log + [request, Toast(loading)];
    assert (two + [Toast(settled)])[..|two|] == two;
    assert BusyAfter(two + [Toast(settled)], init) == BusyAfter(two, init);
    assert two[..|two| - 1] == one;
    assert BusyAfter(two, init) == BusyAfter(one, init);
    assert one[..|log|] == log;
  }

  /** The busy discipline of two logs composes. */
  lemma RequestsWhileBusyAppend(a: seq<Effect>, b: seq<Effect>, init: bool)
    requires RequestsWhileBusy(a, init)
    requires RequestsWhileBusy(b, BusyAfter(a, init))
    ensures RequestsWhileBusy(a + b, init)
  {
    forall i | 0 <= i < |a + b| && (a + b)[i].IsRequest()
      ensures BusyAfter((a + b)[..i], init)
    {
      if i < |a| {
        assert (a + b)[..i] == a[..i];
      } else {
        var j := i - |a|;
        assert (a + b)[..i] == a + b[..j];
        assert b[j] == (a + b)[i];
        BusyAfterAppend(a, b[..j], init);
      }
    }
  }

  /**
   * A bracketed operation appended to a well-behaved log keeps it
   * well-behaved and leaves the flag down, whatever the request and
   * however the operation settled.
   */
  lemma BracketedKeepsDiscipline(log: seq<Effect>, request: Effect, loading: string, settled: ToastEvent)
    requires request.IsRequest()
    requires RequestsWhileBusy(log, false)
    ensures RequestsWhileBusy(log + Bracketed(request, loading, settled), false)
    ensures !BusyAfter(log + Bracketed(request, loading, settled), false)
  {
    var seg := Bracketed(request, loading, settled);
    var start := BusyAfter(log, false);
    forall i | 0 <= i < |seg| && seg[i].IsRequest()
      ensures BusyAfter(seg[..i], start)
    {
      assert i == 1;
      assert seg[..1] == [Busy(true)];
    }
    RequestsWhileBusyAppend(log, seg, false);
    assert !BusyAfter(seg, start);
    BusyAfterAppend(log, seg, false);
  }
}
