/** The rows of the decode service (decode/runtime.cu): the length guard, the position a row
    writes at, and when the KV manager refuses that position. */
module DecodeService {
  import opened SessionRequest

  /** What the decode service keeps for a row. */
  datatype Row = Row(active: bool, startPos: nat, genCol: nat, sampling: Sampling, finish: nat)

  const OFF := Row(false, 0, 0, Sampling(0.0, 0), 0)

  /** The row takes part in the next step: it has a column left to write. */
  predicate Steps(row: Row, maxNew: nat) { row.active && row.genCol + 1 < maxNew }

  /** The row would write outside the page table. The guard looks at columns only. */
  predicate Outside(row: Row, maxNew: nat, capacity: nat) {
    Steps(row, maxNew) && row.startPos + row.genCol >= capacity
  }

  /** One step of a row, which sampled an EOS token or not. */
  function Stepped(row: Row, eos: bool, maxNew: nat): Row {
    if !row.active then row
    else if !Steps(row, maxNew) then row.(active := false, finish := 2)
    else row.(genCol := row.genCol + 1, active := !eos, finish := if eos then 1 else row.finish)
  }

  /** What a step of the whole batch, refused or not, makes of a row. */
  function Advanced(row: Row, ok: bool, eos: bool, maxNew: nat): Row {
    if ok || !Steps(row, maxNew) then Stepped(row, eos, maxNew) else row
  }

  /** A row after one step for each element of `eos`. */
  function Rolled(row: Row, eos: seq<bool>, maxNew: nat): Row {
    if eos == [] then row else Stepped(Rolled(row, eos[..|eos| - 1], maxNew), eos[|eos| - 1], maxNew)
  }

  /** Where any run of samples has brought a row: it still steps exactly when no EOS came up
      and a column is left. */
  lemma {:induction false} RolledSteps(row: Row, eos: seq<bool>, maxNew: nat)
    ensures var r := Rolled(row, eos, maxNew);
      && r.startPos == row.startPos
      && (Steps(r, maxNew) <==> row.active && true !in eos && row.genCol + |eos| + 1 < maxNew)
      && (Steps(r, maxNew) ==> r.genCol == row.genCol + |eos|)
  {
    if eos != [] {
      var n := |eos| - 1;
      assert eos == eos[..n] + [eos[n]];
      RolledSteps(row, eos[..n], maxNew);
      var r := Rolled(row, eos[..n], maxNew);
      if r.active && !Steps(r, maxNew) { assert !Steps(Rolled(row, eos, maxNew), maxNew); }
    }
  }

  /** An EOS came up in a column that was left. */
  ghost predicate SawEos(row: Row, eos: seq<bool>, maxNew: nat) {
    exists i :: 0 <= i < |eos| && eos[i] && row.genCol + i + 1 < maxNew
  }

  /** How a row ends: with code 1 if an EOS came up in one of its columns, with code 2 if none
      did and a step found no column left; until then it is active. */
  lemma {:induction false} RolledFinish(row: Row, eos: seq<bool>, maxNew: nat)
    requires row.active && row.finish == 0
    ensures var r := Rolled(row, eos, maxNew);
      && (r.finish == 1 <==> SawEos(row, eos, maxNew))
      && (r.finish == 2 <==> !SawEos(row, eos, maxNew) && |eos| > 0 && row.genCol + |eos| >= maxNew)
      && (r.active <==> r.finish == 0) && r.finish <= 2
      && (r.active ==> r.genCol == row.genCol + |eos| && r.startPos == row.startPos && r.sampling == row.sampling)
  {
    if eos != [] {
      var n := |eos| - 1;
      var before := Rolled(row, eos[..n], maxNew);
      RolledFinish(row, eos[..n], maxNew);
      assert SawEos(row, eos[..n], maxNew) ==> SawEos(row, eos, maxNew) by {
        if SawEos(row, eos[..n], maxNew) {
          var i :| 0 <= i < n && eos[..n][i] && row.genCol + i + 1 < maxNew;
          assert eos[i];
        }
      }
      assert SawEos(row, eos, maxNew) && !SawEos(row, eos[..n], maxNew) ==> eos[n] && row.genCol + n + 1 < maxNew by {
        if SawEos(row, eos, maxNew) {
          var i :| 0 <= i < |eos| && eos[i] && row.genCol + i + 1 < maxNew;
          if i < n { assert eos[..n][i]; }
        }
      }
      if eos[n] && row.genCol + n + 1 < maxNew { assert SawEos(row, eos, maxNew); }
    }
  }

  /** Some run of samples makes a row write outside the page table if and only if its prompt
      and the columns of the generated buffer do not fit the page table together. */
  lemma OutsideIff(row: Row, maxNew: nat, capacity: nat)
    ensures (exists eos :: Outside(Rolled(row, eos, maxNew), maxNew, capacity))
      <==> Steps(row, maxNew) && row.startPos + maxNew - 1 > capacity
  {
    forall eos | Outside(Rolled(row, eos, maxNew), maxNew, capacity)
      ensures Steps(row, maxNew) && row.startPos + maxNew - 1 > capacity
    {
      RolledSteps(row, eos, maxNew);
    }
    if Steps(row, maxNew) && row.startPos + maxNew - 1 > capacity {
      var eos := seq(maxNew - 2 - row.genCol, _ => false);
      RolledSteps(row, eos, maxNew);
      assert Outside(Rolled(row, eos, maxNew), maxNew, capacity);
    }
  }
}
