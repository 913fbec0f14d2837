/** The MCP reply multiplexer (mcp/transport.py): concurrent requests share one
    pipe, and replies are routed to them by id (JSON-RPC 2.0, section 5). */
module Transport {
  import opened Wrappers

  datatype RpcError = RpcError(code: Option<int>, detail: Option<string>)

  // A line from the server: not JSON or not an object, or an object whose id,
  // error object and result object may each be missing.
  datatype Frame = Unreadable | Message(id: Option<int>, error: Option<RpcError>, result: Option<string>)

  datatype Outcome =
    | Waiting
    | Answered(result: string)
    | RemoteError(code: int, detail: string)
    | NoResult
    | ChannelFailed(reason: string)
    | Abandoned

  // What a reply makes of the request it is for.
  function Verdict(error: Option<RpcError>, result: Option<string>): Outcome {
    match error
    case Some(RpcError(code, detail)) =>
      RemoteError(if code.Some? then code.value else -32000, if detail.Some? then detail.value else "unspecified")
    case None => if result.Some? then Answered(result.value) else NoResult
  }

  // --- What happens on a transport -----------------------------------------------------

  datatype Event =
    | Begin                    // a request takes the next id and registers its future, before it writes
    | Wrote(id: int)           // its line goes out on the pipe
    | Arrived(frame: Frame)    // the reader dispatches a line
    | Broken(reason: string)   // the channel fails or closes
    | GivenUp(id: int)         // the caller's deadline cancels the future it waits on
    | Left(id: int)            // the request's `finally` retires its id

  // Who is registered, and how request n stands at outcomes[n - 1].
  datatype Board = Board(registered: set<int>, outcomes: seq<Outcome>) {
    predicate WaitsFor(n: int) {
      1 <= n <= |outcomes| && n in registered && outcomes[n - 1].Waiting?
    }

    function Settle(n: int, outcome: Outcome): Board {
      if WaitsFor(n) then this.(outcomes := outcomes[n - 1 := outcome]) else this
    }

    function SettleAll(outcome: Outcome): Board {
      this.(outcomes := seq(|outcomes|, i requires 0 <= i < |outcomes| =>
                            if WaitsFor(i + 1) then outcome else outcomes[i]))
    }
  }

  const IDLE := Board({}, [])

  function Happen(b: Board, e: Event): Board {
    match e
    case Begin => Board(b.registered + {|b.outcomes| + 1}, b.outcomes + [Waiting])
    case Wrote(_) => b
    case Arrived(frame) =>
      if frame.Message? && frame.id.Some? then b.Settle(frame.id.value, Verdict(frame.error, frame.result)) else b
    case Broken(reason) => b.SettleAll(ChannelFailed(reason))
    case GivenUp(id) => b.Settle(id, Abandoned)
    case Left(id) => b.(registered := b.registered - {id})
  }

  function HappenAll(b: Board, es: seq<Event>): Board
    decreases |es|
  {
    if es == [] then b else HappenAll(Happen(b, es[0]), es[1..])
  }

  // --- The transport itself ---------------------------------------------------------------

  class Future {
    var outcome: Outcome

    constructor ()
      ensures outcome == Waiting
    {
      outcome := Waiting;
    }

    // set_result and set_exception, guarded by done()
    method Complete(o: Outcome)
      modifies this
      ensures outcome == if old(outcome).Waiting? then o else old(outcome)
    {
      if outcome.Waiting? {
        outcome := o;
      }
    }
  }

  class StdioTransport {
    var nextId: nat
    var pending: map<int, Future>
    var written: seq<nat>          // the ids of the lines on the pipe
    ghost var issued: seq<Future>  // the future of request n is issued[n - 1]

    // Nothing is on the pipe that was not registered first.
    ghost predicate Valid()
      reads this
    {
      && nextId == |issued|
      && (forall i | 0 <= i < |written| :: 1 <= written[i] <= nextId)
      && (forall i, j | 0 <= i < j < |issued| :: issued[i] != issued[j])
      && (forall n | n in pending :: 1 <= n <= |issued| && pending[n] == issued[n - 1])
    }

    ghost function View(): Board
      reads this, issued
    {
      Board(pending.Keys, seq(|issued|, i requires 0 <= i < |issued| reads this, issued => issued[i].outcome))
    }

    constructor ()
      ensures Valid() && View() == IDLE && issued == [] && written == []
    {
      nextId := 0;
      written := [];
      pending := map[];
      issued := [];
    }

    // The start of `request`: ids are never used twice, and the future is in place
    // before anything is written.
    method BeginRequest() returns (id: nat, future: Future)
      requires Valid()
      modifies this
      ensures Valid() && fresh(future) && issued == old(issued) + [future] && written == old(written)
      ensures id == old(nextId) + 1 && id == nextId && id in pending && pending[id] == future
      ensures View() == Happen(old(View()), Begin)
      ensures future.outcome == Waiting && forall n | n in old(pending) :: n in pending && pending[n] == old(pending)[n]
    {
      nextId := nextId + 1;
      id := nextId;
      future := new Future();
      pending := pending[id := future];
      issued := issued + [future];
      assert old(pending).Keys + {id} == pending.Keys;
    }

    // The write in `request`, between the registration and the `finally`.
    method Write(id: nat)
      requires Valid() && id in pending
      modifies `written
      ensures Valid() && written == old(written) + [id]
      ensures View() == Happen(old(View()), Wrote(id))
    {
      written := written + [id];
    }

    // _dispatch: the waiting request a reply is for gets its result, or the error
    // it reports, or, with neither, a protocol error; every other future is left.
    method Dispatch(frame: Frame)
      requires Valid()
      modifies issued
      ensures Valid() && View() == Happen(old(View()), Arrived(frame))
      ensures forall n | n in pending && old(pending[n].outcome).Waiting? && frame.Message? && frame.id == Some(n) ::
                && (frame.error.None? && frame.result.Some? ==> pending[n].outcome == Answered(frame.result.value))
                && (frame.error.None? && frame.result.None? ==> pending[n].outcome == NoResult)
                && (frame.error.Some? ==>
                      && pending[n].outcome.RemoteError?
                      && pending[n].outcome.code
                         == (if frame.error.value.code.Some? then frame.error.value.code.value else -32000)
                      && pending[n].outcome.detail
                         == if frame.error.value.detail.Some? then frame.error.value.detail.value else "unspecified")
      ensures forall i | 0 <= i < |issued| :: issued[i].outcome != old(issued[i].outcome) ==>
                && old(issued[i].outcome).Waiting? && i + 1 in pending
                && frame.Message? && frame.id == Some(i + 1)
    {
      if frame.Unreadable? || frame.id.None? || frame.id.value !in pending {
        return;
      }
      var future := pending[frame.id.value];
      assert future == issued[frame.id.value - 1];
      future.Complete(Verdict(frame.error, frame.result));
    }

    // _fail_pending
    method FailPending(reason: string)
      requires Valid()
      modifies issued
      ensures Valid() && View() == Happen(old(View()), Broken(reason))
      ensures forall i | 0 <= i < |issued| ::
                issued[i].outcome
                == if i + 1 in pending && old(issued[i].outcome).Waiting? then ChannelFailed(reason)
                   else old(issued[i].outcome)
    {
      // The dictionary's values in insertion order, which is the order of the ids.
      for n := 1 to nextId + 1
        invariant Valid() && pending == old(pending)
        invariant forall i | 0 <= i < |issued| ::
                    issued[i].outcome
                    == if i + 1 < n && i + 1 in pending && old(issued[i].outcome).Waiting? then ChannelFailed(reason)
                       else old(issued[i].outcome)
      {
        if n in pending {
          assert pending[n] == issued[n - 1];
          pending[n].Complete(ChannelFailed(reason));
        }
      }
      assert View().outcomes == Happen(old(View()), Broken(reason)).outcomes;
    }

    // The caller's deadline, while it waits on its future.
    method GiveUp(id: nat)
      requires Valid()
      modifies issued
      ensures Valid() && View() == Happen(old(View()), GivenUp(id))
      ensures forall i | 0 <= i < |issued| ::
                issued[i].outcome
                == if i + 1 == id && id in pending && old(issued[i].outcome).Waiting? then Abandoned
                   else old(issued[i].outcome)
    {
      if id in pending {
        pending[id].Complete(Abandoned);
      }
    }

    // The `finally` of `request`.
    method Leave(id: nat)
      requires Valid()
      modifies this
      ensures Valid() && issued == old(issued) && written == old(written)
      ensures View() == Happen(old(View()), Left(id))
      ensures id !in pending && forall n | n in old(pending) && n != id :: n in pending && pending[n] == old(pending)[n]
    {
      pending := pending - {id};
    }
  }

  // --- What request n should get, read off the events alone -----------------------------------

  function Begins(es: seq<Event>): nat {
    if es == [] then 0 else (if es[0].Begin? then 1 else 0) + Begins(es[1..])
  }

  // The events after the n-th registration.
  function Since(es: seq<Event>, n: nat): seq<Event> {
    if es == [] then []
    else if es[0].Begin? && n == 1 then es[1..]
    else Since(es[1..], if es[0].Begin? && n > 0 then n - 1 else n)
  }

  predicate AddressedTo(e: Event, n: int) {
    e.Arrived? && e.frame.Message? && e.frame.id == Some(n)
  }

  predicate Concerns(e: Event, n: int) {
    AddressedTo(e, n) || e.Broken? || e == GivenUp(n) || e == Left(n)
  }

  function FirstConcerning(es: seq<Event>, n: int): Option<Event> {
    if es == [] then None
    else if Concerns(es[0], n) then Some(es[0])
    else FirstConcerning(es[1..], n)
  }

  // The first event that concerns the request decides it; once it has left,
  // nothing does.
  function FirstDecides(es: seq<Event>, n: int): Outcome {
    match FirstConcerning(es, n)
    case Some(Arrived(Message(_, error, result))) => Verdict(error, result)
    case Some(Broken(reason)) => ChannelFailed(reason)
    case Some(GivenUp(_)) => Abandoned
    case _ => Waiting
  }

  // --- Routing is exactly that ------------------------------------------------------------------

  lemma {:induction false} RegisteredRequests(b: Board, es: seq<Event>, n: int)
    requires 1 <= n <= |b.outcomes|
    ensures |HappenAll(b, es).outcomes| == |b.outcomes| + Begins(es)
    ensures HappenAll(b, es).outcomes[n - 1]
            == if b.WaitsFor(n) then FirstDecides(es, n) else b.outcomes[n - 1]
    decreases |es|
  {
    if es != [] {
      RegisteredRequests(Happen(b, es[0]), es[1..], n);
    }
  }

  lemma {:induction false} RequestsToCome(b: Board, es: seq<Event>, n: nat)
    requires 1 <= n <= Begins(es)
    ensures |b.outcomes| + n <= |HappenAll(b, es).outcomes|
    ensures HappenAll(b, es).outcomes[|b.outcomes| + n - 1] == FirstDecides(Since(es, n), |b.outcomes| + n)
    decreases |es|
  {
    var next := Happen(b, es[0]);
    if es[0].Begin? && n == 1 {
      RegisteredRequests(next, es[1..], |b.outcomes| + 1);
    } else {
      RequestsToCome(next, es[1..], if es[0].Begin? then n - 1 else n);
    }
  }

  // On a fresh transport, under any frames, failures and abandonments whatsoever,
  // request n ends as the first event after its registration that concerns it says.
  lemma RepliesAreRouted(es: seq<Event>, n: nat)
    requires 1 <= n <= Begins(es)
    ensures n <= |HappenAll(IDLE, es).outcomes|
    ensures HappenAll(IDLE, es).outcomes[n - 1] == FirstDecides(Since(es, n), n)
    ensures var got := HappenAll(IDLE, es).outcomes[n - 1];
            match FirstConcerning(Since(es, n), n)
            case Some(Arrived(Message(_, None, Some(result)))) => got == Answered(result)
            case Some(Arrived(Message(_, None, None))) => got == NoResult
            case Some(Arrived(Message(_, Some(RpcError(code, detail)), _))) =>
              && got.RemoteError?
              && got.code == (if code.Some? then code.value else -32000)
              && got.detail == if detail.Some? then detail.value else "unspecified"
            case Some(Broken(reason)) => got == ChannelFailed(reason)
            case Some(GivenUp(_)) => got == Abandoned
            case _ => got == Waiting
  {
    RequestsToCome(IDLE, es, n);
  }

  // A request is completed at most once: an outcome, once there, stays.
  lemma CompletedAtMostOnce(b: Board, es: seq<Event>, n: int)
    requires 1 <= n <= |b.outcomes| && !b.outcomes[n - 1].Waiting?
    ensures n <= |HappenAll(b, es).outcomes| && HappenAll(b, es).outcomes[n - 1] == b.outcomes[n - 1]
  {
    RegisteredRequests(b, es, n);
  }

  // What a request gets depends on nothing but the first event that concerns it.
  lemma OthersAreInvisible(es: seq<Event>, fs: seq<Event>, n: nat)
    requires 1 <= n <= Begins(es) && n <= Begins(fs)
    requires FirstConcerning(Since(es, n), n) == FirstConcerning(Since(fs, n), n)
    ensures n <= |HappenAll(IDLE, es).outcomes| && n <= |HappenAll(IDLE, fs).outcomes|
    ensures HappenAll(IDLE, es).outcomes[n - 1] == HappenAll(IDLE, fs).outcomes[n - 1]
  {
    RepliesAreRouted(es, n);
    RepliesAreRouted(fs, n);
  }

  lemma {:induction false} FirstOfTwoStretches(es: seq<Event>, fs: seq<Event>, n: int)
    ensures FirstConcerning(es + fs, n)
            == if FirstConcerning(es, n).Some? then FirstConcerning(es, n) else FirstConcerning(fs, n)
  {
    if es == [] {
      assert es + fs == fs;
    } else {
      assert (es + fs)[1..] == es[1..] + fs;
      FirstOfTwoStretches(es[1..], fs, n);
    }
  }

  lemma {:induction false} NoneConcerns(es: seq<Event>, n: int)
    requires forall i | 0 <= i < |es| :: !Concerns(es[i], n)
    ensures FirstConcerning(es, n).None?
  {
    if es != [] {
      NoneConcerns(es[1..], n);
    }
  }

  lemma {:induction false} SinceRegistration(es: seq<Event>, fs: seq<Event>, n: nat)
    requires 1 <= n <= Begins(es)
    ensures Since(es + fs, n) == Since(es, n) + fs
    ensures n <= Begins(es + fs)
  {
    assert (es + fs)[1..] == es[1..] + fs;
    if es[0].Begin? && n == 1 {
      assert Begins(es + fs) >= 1;
    } else {
      SinceRegistration(es[1..], fs, if es[0].Begin? then n - 1 else n);
    }
  }

  // Frames for others, unreadable or invented, and other callers coming and going,
  // may be put in anywhere after the registration; once the request is decided or
  // has left, so may replies to it, late or duplicate. It gets what it would have.
  lemma LateAndForeignEventsChangeNothing(before: seq<Event>, extra: seq<Event>, after: seq<Event>, n: nat)
    requires 1 <= n <= Begins(before)
    requires FirstConcerning(Since(before, n), n).Some? || forall i | 0 <= i < |extra| :: !Concerns(extra[i], n)
    ensures n <= |HappenAll(IDLE, before + (extra + after)).outcomes| && n <= |HappenAll(IDLE, before + after).outcomes|
    ensures HappenAll(IDLE, before + (extra + after)).outcomes[n - 1] == HappenAll(IDLE, before + after).outcomes[n - 1]
  {
    SinceRegistration(before, extra + after, n);
    SinceRegistration(before, after, n);
    FirstOfTwoStretches(Since(before, n), extra + after, n);
    FirstOfTwoStretches(Since(before, n), after, n);
    if FirstConcerning(Since(before, n), n).None? {
      NoneConcerns(extra, n);
      FirstOfTwoStretches(extra, after, n);
    }
    OthersAreInvisible(before + (extra + after), before + after, n);
  }

  // --- No reply is lost -------------------------------------------------------------------------

  // The order of `request`: a line is written, given up or retired only once its
  // id is registered. Nothing is assumed of the server.
  ghost predicate InOrder(es: seq<Event>) {
    forall i | 0 <= i < |es| && (es[i].Wrote? || es[i].GivenUp? || es[i].Left?) :: 1 <= es[i].id <= Begins(es[..i])
  }

  // Where request n was registered.
  function RegisteredAt(es: seq<Event>, n: int): nat {
    if es == [] || (es[0].Begin? && n == 1) then 0
    else 1 + RegisteredAt(es[1..], if es[0].Begin? then n - 1 else n)
  }

  lemma {:induction false} RegistrationComesFirst(es: seq<Event>, j: nat, n: int)
    requires j <= |es| && 1 <= n <= Begins(es[..j])
    ensures RegisteredAt(es, n) < j && es[RegisteredAt(es, n)].Begin?
    ensures n <= Begins(es) && Since(es, n) == es[RegisteredAt(es, n) + 1..]
    decreases |es|
  {
    assert es[..j][1..] == es[1..][..j - 1];
    if !(es[0].Begin? && n == 1) {
      RegistrationComesFirst(es[1..], j - 1, if es[0].Begin? then n - 1 else n);
    }
  }

  lemma {:induction false} TheFirstIsFirst(es: seq<Event>, k: nat, n: int)
    requires k < |es| && Concerns(es[k], n) && forall i | 0 <= i < k :: !Concerns(es[i], n)
    ensures FirstConcerning(es, n) == Some(es[k])
    decreases k
  {
    if k > 0 {
      TheFirstIsFirst(es[1..], k - 1, n);
    }
  }

  // Whatever a server sends in answer to a line it has read comes after the
  // registration, and unless something else decided the request in between, it is
  // what the request gets.
  lemma NoReplyIsLost(es: seq<Event>, j: nat, k: nat, n: nat)
    requires InOrder(es)
    requires j < k < |es| && es[j] == Wrote(n) && AddressedTo(es[k], n)
    requires forall i | RegisteredAt(es, n) < i < k :: !Concerns(es[i], n)
    ensures RegisteredAt(es, n) < j
    ensures n <= |HappenAll(IDLE, es).outcomes| && 1 <= n
    ensures var got, frame := HappenAll(IDLE, es).outcomes[n - 1], es[k].frame;
            && (frame.error.None? && frame.result.Some? ==> got == Answered(frame.result.value))
            && (frame.error.None? && frame.result.None? ==> got == NoResult)
            && (frame.error.Some? ==>
                  && got.RemoteError?
                  && got.code == (if frame.error.value.code.Some? then frame.error.value.code.value else -32000)
                  && got.detail
                     == if frame.error.value.detail.Some? then frame.error.value.detail.value else "unspecified")
  {
    RegistrationComesFirst(es, j, n);
    var start := RegisteredAt(es, n) + 1;
    TheFirstIsFirst(es[start..], k - start, n);
    assert es[start..][k - start] == es[k];
    RepliesAreRouted(es, n);
  }
}
