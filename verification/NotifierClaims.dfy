/**
  Any number of notifiers that share one claims table.

  Each process calls the store and its channels as `Notifier` does, so its own events satisfy
  `LocalOk`, and the events of all of them interleave in any order. The table keeps every claim
  that was written, also one whose reply was lost.
*/
module NotifierClaims {
  import opened Notifier

  datatype System = Idle | Acted(prev: System, pid: nat, event: Event)

  /** What one process did. */
  function Own(s: System, pid: nat): Trace {
    if s.Idle? then Begin
    else if s.pid == pid then Next(Own(s.prev, pid), s.event)
    else Own(s.prev, pid)
  }

  predicate OnRecord(s: System, c: ClaimKey) {
    s.Acted? && (OnRecord(s.prev, c)
                 || (s.event.Claimed? && s.event.claim == c && (s.event.reply == Won || s.event.reply == Error(true))))
  }

  /** A claim is won only by making its row, and lost only to a row that is there. */
  predicate TableOk(s: System) {
    s.Acted? ==>
      && TableOk(s.prev)
      && (s.event.Claimed? && s.event.reply == Won ==> !OnRecord(s.prev, s.event.claim))
      && (s.event.Claimed? && s.event.reply == Taken ==> OnRecord(s.prev, s.event.claim))
  }

  ghost predicate EachLocal(s: System) {
    forall pid :: LocalOk(Own(s, pid))
  }

  predicate Accepted(s: System, c: ClaimKey) {
    s.Acted? && (Accepted(s.prev, c) || (s.event.Sent? && s.event.claim == c && s.event.ok))
  }

  function Sends(s: System, c: ClaimKey): nat {
    if s.Idle? then 0 else Sends(s.prev, c) + if s.event.Sent? && s.event.claim == c then 1 else 0
  }

  /** Every message goes out from the process that won its claim, and none after it was accepted. */
  ghost predicate SentOnce(s: System) {
    s.Acted? ==>
      && SentOnce(s.prev)
      && (s.event.Sent? ==> HasWon(Own(s.prev, s.pid), s.event.id, s.event.claim) && !Accepted(s.prev, s.event.claim))
  }

  lemma PrefixLocal(s: System)
    requires s.Acted? && EachLocal(s)
    ensures EachLocal(s.prev)
  {
    forall pid ensures LocalOk(Own(s.prev, pid)) {
      assert LocalOk(Own(s, pid));
    }
  }

  lemma {:induction false} WonIsOnRecord(s: System, pid: nat, id: nat, c: ClaimKey)
    requires HasWon(Own(s, pid), id, c)
    ensures OnRecord(s, c)
  {
    if s.Acted? && HasWon(Own(s.prev, pid), id, c) { WonIsOnRecord(s.prev, pid, id, c); }
  }

  /** A claim has at most one winner, among all processes and all their deliveries. */
  lemma {:induction false} OneWinner(s: System, c: ClaimKey, p: nat, i: nat, q: nat, j: nat)
    requires TableOk(s) && HasWon(Own(s, p), i, c) && HasWon(Own(s, q), j, c)
    ensures p == q && i == j
  {
    if HasWon(Own(s.prev, p), i, c) && HasWon(Own(s.prev, q), j, c) {
      OneWinner(s.prev, c, p, i, q, j);
    } else if HasWon(Own(s.prev, p), i, c) {
      WonIsOnRecord(s.prev, p, i, c);
    } else if HasWon(Own(s.prev, q), j, c) {
      WonIsOnRecord(s.prev, q, j, c);
    }
  }

  /** An accepted message was sent by the winner of its claim. */
  lemma {:induction false} AcceptedFromWinner(s: System, c: ClaimKey) returns (pid: nat, id: nat)
    requires SentOnce(s) && Accepted(s, c)
    ensures HasWon(Own(s, pid), id, c) && HasSent(Own(s, pid), id)
  {
    if Accepted(s.prev, c) {
      pid, id := AcceptedFromWinner(s.prev, c);
    } else {
      pid, id := s.pid, s.event.id;
    }
  }

  /**
    With any number of processes and any interleaving, a message is sent only by the process and
    the delivery that won its claim, and nothing is sent for a claim after its message was accepted.
    So each episode, channel and phase has at most one accepted message.
  */
  lemma {:induction false} AtMostOneAccepted(s: System)
    requires TableOk(s) && EachLocal(s)
    ensures SentOnce(s)
  {
    if s.Acted? {
      PrefixLocal(s);
      AtMostOneAccepted(s.prev);
      assert LocalOk(Own(s, s.pid));
      if s.event.Sent? && Accepted(s.prev, s.event.claim) {
        var pid, id := AcceptedFromWinner(s.prev, s.event.claim);
        OneWinner(s.prev, s.event.claim, pid, id, s.pid, s.event.id);
      }
    }
  }

  /** The sends of a claim, over all processes, are attempts of its winner: there are at most five. */
  lemma {:induction false} SendsBounded(s: System, c: ClaimKey, pid: nat, id: nat)
    requires TableOk(s) && EachLocal(s) && HasWon(Own(s, pid), id, c)
    ensures Sends(s, c) <= Attempts(Own(s, pid), id) <= 5
  {
    PrefixLocal(s);
    AtMostOneAccepted(s);
    assert LocalOk(Own(s, pid));
    AttemptsBounded(Own(s, pid), id);
    if HasWon(Own(s.prev, pid), id, c) {
      SendsBounded(s.prev, c, pid, id);
      if s.event.Sent? && s.event.claim == c {
        OneWinner(s.prev, c, pid, id, s.pid, s.event.id);
      }
    } else {
      NoWinnerNoSend(s.prev, c);
    }
  }

  lemma {:induction false} NoWinnerNoSend(s: System, c: ClaimKey)
    requires TableOk(s) && SentOnce(s) && !OnRecord(s, c)
    ensures Sends(s, c) == 0
  {
    if s.Acted? {
      NoWinnerNoSend(s.prev, c);
      if s.event.Sent? && s.event.claim == c {
        WonIsOnRecord(s.prev, s.pid, s.event.id, c);
      }
    }
  }

  lemma {:induction false} AttemptsBounded(t: Trace, id: nat)
    requires LocalOk(t)
    ensures Attempts(t, id) <= 5
  {
    if t.Next? { AttemptsBounded(t.prev, id); }
  }
}
