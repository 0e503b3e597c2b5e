// Putting runs of the multiplexer together.
module MuxRuns {
  import opened MuxProtocol

  // One more step at the end of a run.
  lemma {:induction false} Then<V>(m: Mux<V>, ls: seq<Label<V>>, l: Label<V>) returns (more: seq<Label<V>>)
    requires Legal(m, ls) && Enabled(Exec(m, ls), l)
    ensures more == ls + [l] && Legal(m, more) && Exec(m, more) == Apply(Exec(m, ls), l)
    decreases |ls|
  {
    more := ls + [l];
    if ls != [] {
      var rest := Then(Apply(m, ls[0]), ls[1..], l);
      assert more[1..] == rest;
    }
  }

  // One run after another.
  lemma {:induction false} Join<V>(m: Mux<V>, ls: seq<Label<V>>, more: seq<Label<V>>) returns (all: seq<Label<V>>)
    requires Legal(m, ls) && Legal(Exec(m, ls), more)
    ensures all == ls + more && Legal(m, all) && Exec(m, all) == Exec(Exec(m, ls), more)
    decreases |ls|
  {
    all := ls + more;
    if ls == [] {
      assert all == more;
    } else {
      var rest := Join(Apply(m, ls[0]), ls[1..], more);
      assert all[1..] == rest;
    }
  }
}
