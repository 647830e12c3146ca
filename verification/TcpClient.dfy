/** The client's request correlation with its fields updated in place, one method for each atomic step
    of SendRequest, of a timer's handler and of the reader. */
module TcpClients {
  import opened CorrelationModel

  class TcpClient {
    var nextCorrelationId: nat
    var pendingResponses: map<nat, nat>
    var pendingRequests: nat
    var requests: seq<Request>
    var reader: ReaderPc
    var unmatched: seq<nat>
    ghost var settled: seq<Settled>

    ghost function Abs(): State
      reads this
    {
      State(nextCorrelationId, pendingResponses, pendingRequests, requests, reader, settled, unmatched)
    }

    constructor ()
      ensures Abs() == Init()
    {
      nextCorrelationId, pendingResponses, pendingRequests := 1, map[], 0;
      requests, reader, unmatched, settled := [], Idle, [], [];
    }

    // ---------- SendRequest ----------

    method DrawId(hasHandler: bool)
      modifies this
      ensures Abs() == Step(old(Abs()), Draw(hasHandler))
    {
      requests := requests + [Request(nextCorrelationId, hasHandler, Drawn, Waiting)];
      nextCorrelationId := (nextCorrelationId + 1) % WORD;
    }

    /** emplace leaves an existing entry alone. */
    method Emplace(k: nat)
      requires Enabled(Abs(), Insert(k))
      modifies this
      ensures Abs() == Step(old(Abs()), Insert(k))
    {
      var cid := requests[k].cid;
      if cid !in pendingResponses {
        pendingResponses := pendingResponses[cid := k];
      }
      requests := requests[k := requests[k].(stage := Inserted)];
    }

    method CountRequest(k: nat)
      requires Enabled(Abs(), Count(k))
      modifies this
      ensures Abs() == Step(old(Abs()), Count(k))
    {
      pendingRequests := (pendingRequests + 1) % WORD;
      requests := requests[k := requests[k].(stage := Counted)];
    }

    method ArmTimer(k: nat)
      requires Enabled(Abs(), Arm(k))
      modifies this
      ensures Abs() == Step(old(Abs()), Arm(k))
    {
      requests := requests[k := requests[k].(stage := Armed)];
    }

    // ---------- the timer's handler ----------

    method OnTimer(k: nat)
      requires Enabled(Abs(), Fire(k))
      modifies this
      ensures Abs() == Step(old(Abs()), Fire(k))
    {
      var cid := requests[k].cid;
      if cid in pendingResponses {
        pendingResponses := pendingResponses - {cid};
        requests := requests[k := requests[k].(timer := Erased)];
      } else {
        requests := requests[k := requests[k].(timer := Finished)];
      }
    }

    method Discount()
      modifies this`pendingRequests
      ensures pendingRequests == Minus(old(pendingRequests))
    {
      pendingRequests := (pendingRequests + WORD - 1) % WORD;
    }

    method DiscountTimedOut(k: nat)
      requires Enabled(Abs(), TimerDiscount(k))
      modifies this
      ensures Abs() == Step(old(Abs()), TimerDiscount(k))
    {
      Discount();
      requests := requests[k := requests[k].(timer := Discounted)];
    }

    method CallTimedOut(k: nat)
      requires Enabled(Abs(), TimerCall(k))
      modifies this
      ensures Abs() == Step(old(Abs()), TimerCall(k))
    {
      settled := settled + [Settled(k, TimedOut, requests[k].hasHandler)];
      requests := requests[k := requests[k].(timer := Finished)];
    }

    // ---------- the reader ----------

    method LookUp(cid: nat)
      requires Ids(Abs()) && Enabled(Abs(), Respond(cid))
      modifies this
      ensures Abs() == Step(old(Abs()), Respond(cid))
    {
      if cid !in pendingResponses {
        unmatched := unmatched + [cid];
      } else {
        var k := pendingResponses[cid];
        pendingResponses := pendingResponses - {cid};
        if requests[k].hasHandler {
          reader := Erasing(k);
        } else {
          settled := settled + [Settled(k, Answered, false)];
          unmatched := unmatched + [cid];
        }
      }
    }

    method DiscountAnswered()
      requires Enabled(Abs(), ReaderDiscount)
      modifies this
      ensures Abs() == Step(old(Abs()), ReaderDiscount)
    {
      Discount();
      reader := Answering(reader.k);
    }

    method CallAnswered()
      requires Ids(Abs()) && Enabled(Abs(), ReaderCall)
      modifies this
      ensures Abs() == Step(old(Abs()), ReaderCall)
    {
      settled := settled + [Settled(reader.k, Answered, requests[reader.k].hasHandler)];
      reader := Idle;
    }

    // ---------- whole schedules ----------

    method Requesting(a: Action)
      requires Enabled(Abs(), a) && (a.Draw? || a.Insert? || a.Count? || a.Arm?)
      modifies this
      ensures Abs() == Step(old(Abs()), a)
    {
      match a
      case Draw(hasHandler) => DrawId(hasHandler);
      case Insert(k) => Emplace(k);
      case Count(k) => CountRequest(k);
      case Arm(k) => ArmTimer(k);
    }

    method Settling(a: Action)
      requires Ids(Abs()) && Enabled(Abs(), a) && !a.Draw? && !a.Insert? && !a.Count? && !a.Arm?
      modifies this
      ensures Abs() == Step(old(Abs()), a)
    {
      match a
      case Fire(k) => OnTimer(k);
      case TimerDiscount(k) => DiscountTimedOut(k);
      case TimerCall(k) => CallTimedOut(k);
      case Respond(cid) => LookUp(cid);
      case ReaderDiscount => DiscountAnswered();
      case ReaderCall => CallAnswered();
    }

    /** The object performs exactly the schedule it is given, requesters, timers and reader interleaved. */
    method Perform(schedule: seq<Action>, ghost last: State)
      requires Inv(Abs()) && Runs(Abs(), schedule, last) && NoWrap(last)
      modifies this
      ensures Abs() == last && Inv(Abs())
    {
      var i := 0;
      while i < |schedule|
        invariant 0 <= i <= |schedule| && Inv(Abs()) && Runs(Abs(), schedule[i..], last)
      {
        var a := schedule[i];
        assert schedule[i..][0] == a && schedule[i..][1..] == schedule[i + 1..];
        RequestsGrow(Step(Abs(), a), schedule[i + 1..], last);
        StepKeepsInv(Abs(), a);
        if a.Draw? || a.Insert? || a.Count? || a.Arm? {
          Requesting(a);
        } else {
          Settling(a);
        }
        i := i + 1;
      }
    }

    /** The loop over the messages of one read. */
    method OnMessages(cids: seq<nat>)
      requires Ids(Abs()) && NoWrap(Abs()) && reader.Idle?
      modifies this
      ensures Abs() == AnswerAll(old(Abs()), cids) && Ids(Abs())
    {
      var i := 0;
      while i < |cids|
        invariant 0 <= i <= |cids| && reader.Idle? && Ids(Abs()) && NoWrap(Abs())
        invariant AnswerAll(Abs(), cids[i..]) == AnswerAll(old(Abs()), cids)
      {
        assert cids[i..][0] == cids[i] && cids[i..][1..] == cids[i + 1..];
        OnMessage(cids[i]);
        i := i + 1;
      }
    }

    method OnMessage(cid: nat)
      requires Ids(Abs()) && NoWrap(Abs()) && reader.Idle?
      modifies this
      ensures Abs() == Answer(old(Abs()), cid) && reader.Idle? && Ids(Abs()) && NoWrap(Abs())
    {
      StepKeepsIds(Abs(), Respond(cid));
      LookUp(cid);
      if reader.Erasing? {
        StepKeepsIds(Abs(), ReaderDiscount);
        DiscountAnswered();
        StepKeepsIds(Abs(), ReaderCall);
        CallAnswered();
      }
    }
  }
}
