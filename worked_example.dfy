/**
 * A worked example: two aggregate rows, one tick apart,
 * `cpu  100 0 100 700 100 0 0 0 0 0` (total 1000, idle 800) and
 * `cpu  110 0 110 770 110 0 0 0 0 0` (total 1100, idle 880), give 20 %.
 */
module WorkedExample {
  import opened Wrappers
  import opened Text
  import opened Sampler
  import opened Calculator

  /** The numerals the example rows are made of. */
  lemma NumeralsOfExample()
    ensures NatToString(0) == "0" && NatToString(100) == "100" && NatToString(700) == "700"
    ensures NatToString(110) == "110" && NatToString(770) == "770"
  {
    assert NatToString(10) == "10";
    assert NatToString(11) == "11";
    assert NatToString(70) == "70";
    assert NatToString(77) == "77";
  }

  lemma {:induction false} SumCons(x: nat, rest: seq<nat>)
    ensures Sum([x] + rest) == x + Sum(rest)
    decreases |rest|
  {
    var all := [x] + rest;
    if rest != [] {
      assert all[..|all| - 1] == [x] + rest[..|rest| - 1];
      SumCons(x, rest[..|rest| - 1]);
    } else {
      assert all[..0] == [];
    }
  }

  /** One more counter in front of a row: one more column and a larger sum. */
  lemma PrependCounter(x: nat, rest: seq<nat>)
    ensures Columns([x] + rest) == " " + NatToString(x) + Columns(rest)
    ensures Sum([x] + rest) == x + Sum(rest)
  {
    assert ([x] + rest)[1..] == rest;
    SumCons(x, rest);
  }

  /** The five trailing zero counters of the example rows. */
  lemma ZeroCounters(z: seq<nat>)
    requires z == [0, 0, 0, 0, 0]
    ensures Columns(z) == " 0 0 0 0 0" && Sum(z) == 0
  {
    assert NatToString(0) == "0";
    var z1: seq<nat> := [0] + [];
    var z2 := [0] + z1;
    var z3 := [0] + z2;
    var z4 := [0] + z3;
    var z5 := [0] + z4;
    PrependCounter(0, []);
    PrependCounter(0, z1);
    PrependCounter(0, z2);
    PrependCounter(0, z3);
    PrependCounter(0, z4);
    assert Columns(z5) == " 0 0 0 0 0";
    assert z == z5;
  }

  lemma FirstRowText(row: string)
    requires row == "cpu  100 0 100 700 100 0 0 0 0 0"
    ensures "cpu " + (" " + "100" + (" " + "0" + (" " + "100" + (" " + "700" + (" " + "100" + " 0 0 0 0 0"))))) == row
  {
  }

  lemma SecondRowText(row: string)
    requires row == "cpu  110 0 110 770 110 0 0 0 0 0"
    ensures "cpu " + (" " + "110" + (" " + "0" + (" " + "110" + (" " + "770" + (" " + "110" + " 0 0 0 0 0"))))) == row
  {
  }

  /** The first example row reads as total 1000, idle 800. */
  lemma FirstExampleRow(row: string)
    requires row == "cpu  100 0 100 700 100 0 0 0 0 0"
    ensures ReadLines([row]) == Ok(CPUUsage(1000, 800))
  {
    var z: seq<nat> := [0, 0, 0, 0, 0];
    var r1 := [100] + z;
    var r2 := [700] + r1;
    var r3 := [100] + r2;
    var r4 := [0] + r3;
    var r5 := [100] + r4;
    NumeralsOfExample();
    ZeroCounters(z);
    PrependCounter(100, z);
    PrependCounter(700, r1);
    PrependCounter(100, r2);
    PrependCounter(0, r3);
    PrependCounter(100, r4);
    FirstRowText(row);
    assert FormatRow(r5) == row;
    FormatRowRoundTrip(r5, []);
    assert [FormatRow(r5)] + [] == [row];
  }

  /** The second example row reads as total 1100, idle 880. */
  lemma SecondExampleRow(row: string)
    requires row == "cpu  110 0 110 770 110 0 0 0 0 0"
    ensures ReadLines([row]) == Ok(CPUUsage(1100, 880))
  {
    var z: seq<nat> := [0, 0, 0, 0, 0];
    var r1 := [110] + z;
    var r2 := [770] + r1;
    var r3 := [110] + r2;
    var r4 := [0] + r3;
    var r5 := [110] + r4;
    NumeralsOfExample();
    ZeroCounters(z);
    PrependCounter(110, z);
    PrependCounter(770, r1);
    PrependCounter(110, r2);
    PrependCounter(0, r3);
    PrependCounter(110, r4);
    SecondRowText(row);
    assert FormatRow(r5) == row;
    FormatRowRoundTrip(r5, []);
    assert [FormatRow(r5)] + [] == [row];
  }

  /** Both rows read, then compared: 20 % busy. */
  lemma ProcStatExample(row1: string, row2: string)
    requires row1 == "cpu  100 0 100 700 100 0 0 0 0 0"
    requires row2 == "cpu  110 0 110 770 110 0 0 0 0 0"
    ensures ReadLines([row1]).Ok? && ReadLines([row2]).Ok?
    ensures CPUPercentage(ReadLines([row1]).value, ReadLines([row2]).value) == 20.0
  {
    FirstExampleRow(row1);
    SecondExampleRow(row2);
    TwentyPercentExample();
  }
}
