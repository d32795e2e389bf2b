/** The tests' ordering counter: every responder that fires bumps a shared count
    and fulfils its expectation only when the count reaches the number that
    responder expects, so the expectations are all met exactly when the responders
    fire in the order of their expected numbers. */
module ExpectCounter {
  import opened DataStoreTypes

  /** One `expect` step: the next count, and whether it is the expected one. */
  function Expect(currCount: int, expectedCount: int): (r: (int, bool))
    ensures r.0 == currCount + 1
    ensures r.1 <==> r.0 == expectedCount
  {
    var count := currCount + 1;
    (count, count == expectedCount)
  }

  /** Runs `expect` for responders firing in order, each with the count it expects,
      starting from `count`; the i-th responder to fire fulfils its expectation
      exactly when it expects the count to have reached count + i + 1. */
  function Tally(expected: seq<int>, count: int): (r: seq<bool>)
    ensures |r| == |expected|
    ensures forall i :: 0 <= i < |r| ==> (r[i] <==> expected[i] == count + i + 1)
    decreases |expected|
  {
    if expected == [] then []
    else
      var (next, fulfilled) := Expect(count, expected[0]);
      var rest := Tally(expected[1..], next);
      assert forall i :: 1 <= i < |expected| ==> expected[1..][i - 1] == expected[i];
      [fulfilled] + rest
  }

  /** Starting from zero, every expectation is met if and only if the responders
      fired in exactly the order 1, 2, 3, ... of their expected counts. */
  lemma AllFulfilledIffInOrder(expected: seq<int>)
    ensures (forall i :: 0 <= i < |expected| ==> Tally(expected, 0)[i])
      <==> (forall i :: 0 <= i < |expected| ==> expected[i] == i + 1)
  {
    var r := Tally(expected, 0);
    forall i | 0 <= i < |expected| ensures r[i] <==> expected[i] == i + 1 {
      assert r[i] <==> expected[i] == 0 + i + 1;
    }
    if forall i :: 0 <= i < |expected| ==> r[i] {
      forall i | 0 <= i < |expected| ensures expected[i] == i + 1 {
        assert r[i];
      }
    }
    if forall i :: 0 <= i < |expected| ==> expected[i] == i + 1 {
      forall i | 0 <= i < |expected| ensures r[i] {
        assert expected[i] == i + 1;
      }
    }
  }

  /** The expected counts of the engine calls that hit a counting responder, in call
      order; `responders` maps an operation to the count its responder expects. When
      every call hits a responder, each contributes its responder's count, in order;
      when none does, nothing is counted. */
  function Responded(ops: seq<EngineOp>, responders: map<EngineOp, int>): (r: seq<int>)
    ensures |r| <= |ops|
    ensures forall j :: 0 <= j < |r| ==> r[j] in responders.Values
    ensures (forall j :: 0 <= j < |ops| ==> ops[j] in responders) ==>
      |r| == |ops| && forall j :: 0 <= j < |ops| ==> r[j] == responders[ops[j]]
    ensures (forall j :: 0 <= j < |ops| ==> ops[j] !in responders) ==> r == []
    decreases |ops|
  {
    if ops == [] then []
    else
      assert forall j :: 1 <= j < |ops| ==> ops[1..][j - 1] == ops[j];
      if ops[0] in responders then [responders[ops[0]]] + Responded(ops[1..], responders)
      else Responded(ops[1..], responders)
  }

  /** One call counts its responder's expected number if it has a responder, and
      nothing otherwise. */
  lemma RespondedOne(op: EngineOp, responders: map<EngineOp, int>)
    ensures Responded([op], responders) == if op in responders then [responders[op]] else []
  {
    assert [op][1..] == [];
  }

  /** The counted firings of two call runs are those of the first, then those of
      the second. */
  lemma {:induction false} RespondedAppend(a: seq<EngineOp>, b: seq<EngineOp>, responders: map<EngineOp, int>)
    ensures Responded(a + b, responders) == Responded(a, responders) + Responded(b, responders)
    decreases |a|
  {
    if a == [] {
      assert a + b == b;
    } else {
      assert (a + b)[0] == a[0] && (a + b)[1..] == a[1..] + b;
      RespondedAppend(a[1..], b, responders);
    }
  }
}
