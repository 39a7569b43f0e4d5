/**
 * The optimistic reservation protocol shared by the IPv4 subnet, IPv6
 * subnet and VLAN create handlers: walk the ordered candidate list, send
 * one "new_only" creation per candidate, stop at the first answer that
 * carries an object id, stop at once on a transport failure, move on after
 * any other answer, and report exhaustion when no candidate is left.
 *
 * The inventory is an oracle: `replies[i]` is its answer to attempt `i`.
 */
module Reservation {
  import opened Base

  /** How one creation attempt ended. */
  datatype Attempt = Won(oid: string) | Lost | Fatal(cause: string)

  /** The handlers' reading of an answer: an answer with status 200/201, a
      non-empty body and a `ret_oid` wins; a transport failure is fatal;
      every other answer, a 200 without `ret_oid` included, loses. */
  function Classify(r: Reply): Attempt
  {
    if r.TransportError? then Fatal(r.cause)
    else match RetOid(r)
      case Some(oid) => Won(oid)
      case None => Lost
  }

  /** An accepted answer that lacks `ret_oid` moves on to the next candidate. */
  lemma OidlessAnswerLoses(r: Reply)
    requires Accepted(r) && "ret_oid" !in r.body[0]
    ensures Classify(r) == Lost
  {
  }

  /** How the whole walk ended; `index` is the attempt that decided it. */
  datatype Verdict = Reserved(index: nat, oid: string) | Aborted(index: nat, cause: string) | Exhausted

  /** The number of creation requests sent for `n` candidates. */
  function Attempts(v: Verdict, n: nat): nat
  {
    if v.Exhausted? then n else v.index + 1
  }

  /** The same verdict, `k` attempts later. */
  function Shift(v: Verdict, k: nat): Verdict
  {
    match v
    case Reserved(i, oid) => Reserved(i + k, oid)
    case Aborted(i, cause) => Aborted(i + k, cause)
    case Exhausted => Exhausted
  }

  /**
   * The verdict of the walk over the answers to successive attempts: the
   * first attempt that does not lose decides, and every attempt before it
   * lost; exhaustion means every attempt lost.
   */
  function Decide(replies: seq<Reply>): (v: Verdict)
    ensures v.Reserved? ==> v.index < |replies| && Classify(replies[v.index]) == Won(v.oid)
    ensures v.Aborted? ==> v.index < |replies| && Classify(replies[v.index]) == Fatal(v.cause)
    ensures !v.Exhausted? ==> forall j :: 0 <= j < v.index ==> Classify(replies[j]) == Lost
    ensures v.Exhausted? <==> forall j :: 0 <= j < |replies| ==> Classify(replies[j]) == Lost
    decreases |replies|
  {
    if replies == [] then Exhausted
    else match Classify(replies[0])
      case Won(oid) => Reserved(0, oid)
      case Fatal(cause) => Aborted(0, cause)
      case Lost => Shift(Decide(replies[1..]), 1)
  }

  /**
   * The candidate loop. `requests[i]` is the creation request for candidate
   * `i`; the requests actually sent are the first `Attempts` of them, so no
   * candidate after the deciding one is tried.
   */
  method Reserve<Req>(requests: seq<Req>, replies: seq<Reply>) returns (v: Verdict, sent: seq<Req>)
    requires |replies| >= |requests|
    ensures v == Decide(replies[..|requests|])
    ensures sent == requests[..Attempts(v, |requests|)]
  {
    ghost var answers := replies[..|requests|];
    sent := [];
    var i := 0;
    while i < |requests|
      invariant 0 <= i <= |requests|
      invariant sent == requests[..i]
      invariant forall j :: 0 <= j < i ==> Classify(answers[j]) == Lost
    {
      sent := sent + [requests[i]];
      match Classify(replies[i])
      case Won(oid) =>
        v := Reserved(i, oid);
        assert answers[i] == replies[i];
        DecidedAt(answers, i);
        return;
      case Fatal(cause) =>
        v := Aborted(i, cause);
        assert answers[i] == replies[i];
        DecidedAt(answers, i);
        return;
      case Lost =>
        assert answers[i] == replies[i];
        i := i + 1;
    }
    v := Exhausted;
  }

  /** The attempt after a run of losing attempts decides the walk. */
  lemma DecidedAt(replies: seq<Reply>, i: nat)
    requires i < |replies| && !Classify(replies[i]).Lost?
    requires forall j :: 0 <= j < i ==> Classify(replies[j]) == Lost
    ensures Decide(replies) == match Classify(replies[i])
      case Won(oid) => Reserved(i, oid)
      case Fatal(cause) => Aborted(i, cause)
      case Lost => Exhausted
  {
  }

  /** Answers after the deciding attempt are never consulted: adding
      candidates after it changes nothing. */
  lemma {:induction false} DecidedPrefixIsFinal(replies: seq<Reply>, more: seq<Reply>)
    requires !Decide(replies).Exhausted?
    ensures Decide(replies + more) == Decide(replies)
    decreases |replies|
  {
    assert (replies + more)[0] == replies[0];
    if Classify(replies[0]).Lost? {
      assert (replies + more)[1..] == replies[1..] + more;
      DecidedPrefixIsFinal(replies[1..], more);
    }
  }

  /** Candidates that all lose only delay the walk over the rest. */
  lemma {:induction false} ExhaustedPrefixShifts(replies: seq<Reply>, more: seq<Reply>)
    requires Decide(replies).Exhausted?
    ensures Decide(replies + more) == Shift(Decide(more), |replies|)
    decreases |replies|
  {
    if replies == [] {
      assert replies + more == more;
      assert Shift(Decide(more), 0) == Decide(more);
    } else {
      assert Classify(replies[0]) == Lost;
      assert (replies + more)[0] == replies[0];
      assert (replies + more)[1..] == replies[1..] + more;
      ExhaustedPrefixShifts(replies[1..], more);
    }
  }
}
