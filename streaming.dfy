/** The consumer side of `get_answer_stream_iter`: every fragment the agent
    run forwards is appended to `partial_text`, and the text so far is yielded
    after each one. The generator's output is modelled as the finite sequence
    of values it yields. */
module Streaming {

  /** How the worker's agent run ended. */
  datatype RunOutcome = Completed(reply: string) | Raised(message: string)

  /** The last fragment the worker sends: the reply, or `str(e)` when the run raised. */
  function FinalFragment(outcome: RunOutcome): string {
    match outcome
    case Completed(reply) => reply
    case Raised(message) => message
  }

  /** Everything the worker sends once the agent is built and its run starts:
      the fragments its callback forwarded during the run, then one final
      fragment. */
  function Produced(forwarded: seq<string>, outcome: RunOutcome): (frags: seq<string>)
    ensures |frags| == |forwarded| + 1 && frags[|forwarded|] == FinalFragment(outcome)
    ensures frags[..|forwarded|] == forwarded
  {
    forwarded + [FinalFragment(outcome)]
  }

  /** The total number of characters in the fragments, counted from the front. */
  function TotalLength(frags: seq<string>): nat {
    if frags == [] then 0 else |frags[0]| + TotalLength(frags[1..])
  }

  lemma {:induction false} TotalLengthSnoc(frags: seq<string>, f: string)
    ensures TotalLength(frags + [f]) == TotalLength(frags) + |f|
  {
    if frags != [] {
      assert (frags + [f])[1..] == frags[1..] + [f];
      TotalLengthSnoc(frags[1..], f);
    } else {
      assert [f][1..] == [];
    }
  }

  /** The fragments glued together in order, as `partial_text += value` does:
      no character is lost or added. */
  function Concat(frags: seq<string>): (text: string)
    ensures |text| == TotalLength(frags)
  {
    if frags == [] then ""
    else
      var init := frags[..|frags| - 1];
      assert init + [frags[|frags| - 1]] == frags;
      TotalLengthSnoc(init, frags[|frags| - 1]);
      Concat(init) + frags[|frags| - 1]
  }

  /** The values the consumer yields, one per fragment. */
  function Cumulative(frags: seq<string>): (ys: seq<string>)
    ensures |ys| == |frags|
  {
    if frags == [] then [] else Cumulative(frags[..|frags| - 1]) + [Concat(frags)]
  }

  /** The k-th yield (counting from 0) is the concatenation of fragments 0 to k. */
  lemma {:induction false} CumulativeAt(frags: seq<string>, k: nat)
    requires k < |frags|
    ensures Cumulative(frags)[k] == Concat(frags[..k + 1])
  {
    var init := frags[..|frags| - 1];
    if k < |init| {
      CumulativeAt(init, k);
      assert init[..k + 1] == frags[..k + 1];
    } else {
      assert frags[..k + 1] == frags;
    }
  }

  /** The consumer loop: yields `partial_text` after appending each fragment. */
  method Consume(frags: seq<string>) returns (values: seq<string>)
    ensures values == Cumulative(frags)
  {
    var partialText := "";
    values := [];
    for i := 0 to |frags|
      invariant partialText == Concat(frags[..i])
      invariant values == Cumulative(frags[..i])
    {
      assert frags[..i + 1][..i] == frags[..i];
      partialText := partialText + frags[i];
      values := values + [partialText];
    }
    assert frags[..|frags|] == frags;
  }

  lemma {:induction false} ConcatAppend(a: seq<string>, b: seq<string>)
    ensures Concat(a + b) == Concat(a) + Concat(b)
    decreases |b|
  {
    if b == [] {
      assert a + b == a;
    } else {
      var b', last := b[..|b| - 1], b[|b| - 1];
      var ab := a + b;
      assert ab[..|ab| - 1] == a + b' && ab[|ab| - 1] == last;
      assert Concat(ab) == Concat(a + b') + last;
      ConcatAppend(a, b');
      assert Concat(b) == Concat(b') + last;
    }
  }

  /** Each yield extends the previous one by exactly the next fragment. */
  lemma CumulativeStep(frags: seq<string>, k: nat)
    requires k + 1 < |frags|
    ensures Cumulative(frags)[k + 1] == Cumulative(frags)[k] + frags[k + 1]
  {
    CumulativeAt(frags, k);
    CumulativeAt(frags, k + 1);
    assert frags[..k + 2][..k + 1] == frags[..k + 1];
  }

  /** An earlier yield is always a prefix of a later one, so the yielded text never shrinks. */
  lemma {:induction false} CumulativeMonotone(frags: seq<string>, j: nat, k: nat)
    requires j <= k < |frags|
    ensures var ys := Cumulative(frags);
      |ys[j]| <= |ys[k]| && ys[k][..|ys[j]|] == ys[j]
    decreases k - j
  {
    if j < k {
      CumulativeMonotone(frags, j, k - 1);
      CumulativeStep(frags, k - 1);
    }
  }

  /** The last yield is the whole text. */
  lemma CumulativeLast(frags: seq<string>)
    requires frags != []
    ensures Cumulative(frags)[|frags| - 1] == Concat(frags)
  {
    CumulativeAt(frags, |frags| - 1);
    assert frags[..|frags|] == frags;
  }

  /** Once the run starts, the consumer sees at least one value, one per
      fragment sent, and the final value ends with the reply or the error
      message. */
  lemma FinalYieldCarriesOutcome(forwarded: seq<string>, outcome: RunOutcome)
    ensures var ys := Cumulative(Produced(forwarded, outcome));
      |ys| == |forwarded| + 1 &&
      ys[|ys| - 1] == Concat(forwarded) + FinalFragment(outcome)
  {
    var frags := Produced(forwarded, outcome);
    CumulativeLast(frags);
    assert frags[..|frags| - 1] == forwarded;
  }
}
