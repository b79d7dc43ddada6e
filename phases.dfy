/**
 * How the interval callback picks the phase message for a completion
 * percentage (app/page.tsx).
 */
module Phases {
  import opened Wrappers

  /**
   * `Math.floor((p / 100) * count)` on whole numbers: the largest `i` with
   * `i * 100 <= p * count`.
   */
  function PhaseIndex(p: nat, count: nat): (i: nat)
    ensures i * 100 <= p * count < (i + 1) * 100
  {
    p * count / 100
  }

  /**
   * The element of `messages` at the phase index of `p`, or `None` (the
   * `undefined` of an out-of-range array read) when the index is past the end.
   */
  function PhaseMessage(messages: seq<string>, p: nat): (r: Option<string>)
    ensures r.Some? <==> PhaseIndex(p, |messages|) < |messages|
    ensures r.Some? ==> r.value == messages[PhaseIndex(p, |messages|)]
  {
    var i := PhaseIndex(p, |messages|);
    if i < |messages| then Some(messages[i]) else None
  }

  /** The phase index is in range exactly while the percentage is below 100. */
  lemma PhaseIndexInRange(p: nat, count: nat)
    requires count > 0
    ensures PhaseIndex(p, count) < count <==> p < 100
  {
    var i := PhaseIndex(p, count);
    if p < 100 {
      assert p * count < 100 * count by { MulStrict(p, 100, count); }
      assert i * 100 < 100 * count;
    } else {
      assert 100 * count <= p * count by { MulMono(100, p, count); }
      assert count * 100 < (i + 1) * 100;
    }
  }

  /** At 100 % the index equals the length: one past the last message. */
  lemma PhaseIndexAtFull(count: nat)
    ensures PhaseIndex(100, count) == count
  {
  }

  /** A larger percentage never selects an earlier message. */
  lemma PhaseIndexMonotone(p: nat, q: nat, count: nat)
    requires p <= q
    ensures PhaseIndex(p, count) <= PhaseIndex(q, count)
  {
    var i, j := PhaseIndex(p, count), PhaseIndex(q, count);
    MulMono(p, q, count);
    assert i * 100 < (j + 1) * 100;
  }

  /** With seven messages, 10 %, 20 %, ..., 100 % select 0,1,2,2,3,4,4,5,6 and then 7. */
  lemma SevenPhaseIndices()
    ensures PhaseIndex(10, 7) == 0 && PhaseIndex(20, 7) == 1 && PhaseIndex(30, 7) == 2
    ensures PhaseIndex(40, 7) == 2 && PhaseIndex(50, 7) == 3 && PhaseIndex(60, 7) == 4
    ensures PhaseIndex(70, 7) == 4 && PhaseIndex(80, 7) == 5 && PhaseIndex(90, 7) == 6
    ensures PhaseIndex(100, 7) == 7
  {
  }

  /**
   * For a non-empty message list, a step percentage in 1..100 shows a
   * message, except at 100 % where the message is undefined.
   */
  lemma PhaseMessageUndefinedOnlyAtFull(messages: seq<string>, p: nat)
    requires |messages| > 0 && p <= 100
    ensures PhaseMessage(messages, p) == None <==> p == 100
    ensures p < 100 ==> PhaseMessage(messages, p) == Some(messages[PhaseIndex(p, |messages|)])
  {
    PhaseIndexInRange(p, |messages|);
  }

  lemma MulMono(a: nat, b: nat, c: nat)
    requires a <= b
    ensures a * c <= b * c
  {
    assert b * c == a * c + (b - a) * c;
  }

  lemma MulStrict(a: nat, b: nat, c: nat)
    requires a < b && c > 0
    ensures a * c < b * c
  {
    assert b * c == a * c + (b - a) * c;
    assert (b - a) * c >= c by { MulMono(1, b - a, c); }
  }
}
