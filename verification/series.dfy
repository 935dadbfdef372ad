/** Sums over finite series of reals, shared by the Runge-Kutta
    conservation argument and the running totals of the calibration. */
module Series {

  function Sum(v: seq<real>): real
    decreases |v|
  {
    if |v| == 0 then 0.0 else v[0] + Sum(v[1..])
  }

  /** Adding one more term at the end adds it to the sum. */
  lemma {:induction false} SumAppend(v: seq<real>, x: real)
    ensures Sum(v + [x]) == Sum(v) + x
    decreases |v|
  {
    if |v| > 0 {
      assert (v + [x])[1..] == v[1..] + [x];
      SumAppend(v[1..], x);
    } else {
      assert (v + [x])[1..] == [];
    }
  }
}
