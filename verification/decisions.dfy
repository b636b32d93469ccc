/**
 * The host's `decisions.reason(action, reason, priority=…)` as the v6.5 and
 * v7.7 scripts use it: every call registers a candidate, and the action the
 * host finally applies is the candidate of highest priority. Among equal
 * priorities the earlier call is kept. The reason text is not modelled.
 */
module Decisions {
  import opened Common

  datatype Candidate = Candidate(action: Action, priority: int)

  /** The candidate the host applies: highest priority, earliest among equals. */
  function Winner(cs: seq<Candidate>): (w: Candidate)
    requires |cs| > 0
    ensures w in cs
    ensures forall c :: c in cs ==> c.priority <= w.priority
    ensures exists k :: 0 <= k < |cs| && cs[k] == w && forall j :: 0 <= j < k ==> cs[j].priority < w.priority
  {
    if |cs| == 1 then cs[0]
    else
      var rest := Winner(cs[1..]);
      assert forall c :: c in cs[1..] ==> c in cs;
      assert forall c :: c in cs ==> c == cs[0] || c in cs[1..];
      if cs[0].priority >= rest.priority then cs[0]
      else
        var k :| 0 <= k < |cs[1..]| && cs[1..][k] == rest && forall j :: 0 <= j < k ==> cs[1..][j].priority < rest.priority;
        assert cs[k + 1] == rest;
        rest
  }

  /** A candidate registered later with no higher priority never displaces the current winner. */
  lemma {:induction false} LaterLowerNeverOverrides(cs: seq<Candidate>, c: Candidate)
    requires |cs| > 0
    requires c.priority <= Winner(cs).priority
    ensures Winner(cs + [c]) == Winner(cs)
  {
    if |cs| > 1 {
      assert (cs + [c])[1..] == cs[1..] + [c];
      var rest := Winner(cs[1..]);
      if c.priority <= rest.priority {
        LaterLowerNeverOverrides(cs[1..], c);
      } else {
        assert Winner(cs[1..] + [c]) == c by {
          LaterHigherWins(cs[1..], c);
        }
      }
    }
  }

  /** A candidate registered later with strictly higher priority than every earlier one wins. */
  lemma {:induction false} LaterHigherWins(cs: seq<Candidate>, c: Candidate)
    requires |cs| > 0
    requires c.priority > Winner(cs).priority
    ensures Winner(cs + [c]) == c
  {
    if |cs| > 1 {
      assert (cs + [c])[1..] == cs[1..] + [c];
      LaterHigherWins(cs[1..], c);
    }
  }

  /** When every candidate at or above priority p proposes action a, and one exists, a is applied. */
  lemma TopBandDecides(cs: seq<Candidate>, p: int, a: Action)
    requires exists c :: c in cs && c.priority >= p
    requires forall c :: c in cs && c.priority >= p ==> c.action == a
    ensures |cs| > 0
    ensures Winner(cs).action == a
  {
    var c :| c in cs && c.priority >= p;
    assert Winner(cs).priority >= c.priority;
  }

  /** Only the actions that some candidate proposes can be applied. */
  predicate Proposes(cs: seq<Candidate>, a: Action)
  {
    exists c :: c in cs && c.action == a
  }

  /** What one rule does: the candidates it registers and the feed-in limit it assigns, if any. */
  datatype Effect = Effect(candidates: seq<Candidate>, feedIn: Option<real>)

  const NoEffect: Effect := Effect([], None)

  function Register(a: Action, priority: int): Effect
  {
    Effect([Candidate(a, priority)], None)
  }

  /** All candidates registered, in registration order. */
  function AllCandidates(es: seq<Effect>): (cs: seq<Candidate>)
    ensures forall c :: c in cs <==> exists k :: 0 <= k < |es| && c in es[k].candidates
  {
    if |es| == 0 then []
    else
      var front := AllCandidates(es[..|es| - 1]);
      assert forall k :: 0 <= k < |es| - 1 ==> es[..|es| - 1][k] == es[k];
      front + es[|es| - 1].candidates
  }

  /** The feed-in limit the effects leave behind: the last assignment executed, if any. */
  function LastAssignment(es: seq<Effect>): (v: Option<real>)
    ensures v.None? <==> forall k :: 0 <= k < |es| ==> es[k].feedIn.None?
    ensures forall k :: 0 <= k < |es| && es[k].feedIn.Some? && (forall j :: k < j < |es| ==> es[j].feedIn.None?) ==>
      v == es[k].feedIn
  {
    if |es| == 0 then None
    else match es[|es| - 1].feedIn
      case Some(x) => Some(x)
      case None =>
        assert forall k :: 0 <= k < |es| - 1 ==> es[..|es| - 1][k] == es[k];
        LastAssignment(es[..|es| - 1])
  }
}
