// From a candidate list (src/faithrec/recbench.py) to a training target that the
// verifier accepts (teacher/build_sft.py).

module TrainingRows {
  import opened Results
  import opened Items
  import opened Candidates
  import opened WarmStart
  import Reward

  function Letters(cs: seq<Candidate>): seq<string> {
    seq(|cs|, i requires 0 <= i < |cs| => [cs[i].letter])
  }

  function Names(letters: seq<char>): seq<string> {
    seq(|letters|, i requires 0 <= i < |letters| => [letters[i]])
  }

  function InstanceOf(r: Attached, evidence: seq<string>): Instance {
    Instance(Letters(r.candidates), Names(r.positiveLetters), evidence)
  }

  lemma {:induction false} PositiveLettersIncrease(cs: seq<Candidate>, row: seq<Item>, positives: set<string>)
    requires Lettered(cs, row, positives)
    ensures forall i, j :: 0 <= i < j < |PositiveLetters(cs)| ==> PositiveLetters(cs)[i] < PositiveLetters(cs)[j]
    ensures forall c :: c in PositiveLetters(cs) <==> exists x :: x in cs && x.positive && x.letter == c
  {
    if cs != [] {
      var front, last := cs[..|cs| - 1], cs[|cs| - 1];
      assert cs == front + [last];
      PositiveLettersIncrease(front, row[..|cs| - 1], positives);
      forall c | c in PositiveLetters(front) ensures c < last.letter {
        var x :| x in front && x.positive && x.letter == c;
        var i :| 0 <= i < |front| && front[i] == x;
        assert LetterId(i) == Ok(cs[i].letter) && LetterId(|front|) == Ok(last.letter);
      }
      hide Lettered, LetterId;
      forall i, j | 0 <= i < j < |PositiveLetters(cs)| ensures PositiveLetters(cs)[i] < PositiveLetters(cs)[j] {
        if j == |PositiveLetters(front)| {
          assert PositiveLetters(front)[i] in PositiveLetters(front);
        }
      }
    }
  }

  lemma {:induction false} LettersDistinct(cs: seq<Candidate>, row: seq<Item>, positives: set<string>)
    requires Lettered(cs, row, positives)
    ensures Distinct(Letters(cs)) && Distinct(Names(PositiveLetters(cs)))
  {
    PositiveLettersIncrease(cs, row, positives);
    forall i, j | 0 <= i < j < |cs| ensures Letters(cs)[i] != Letters(cs)[j] {
      assert LetterId(i) != LetterId(j);
    }
  }

  lemma {:induction false} SelectedInPool(cs: seq<Candidate>, row: seq<Item>, selected: Item, positives: set<string>,
                                          evidence: seq<string>)
    requires Lettered(cs, row, positives) && selected in row && selected.id in positives
    ensures PoolPositives(Instance(Letters(cs), Names(PositiveLetters(cs)), evidence)) != []
  {
    PositiveLettersIncrease(cs, row, positives);
    var inst := Instance(Letters(cs), Names(PositiveLetters(cs)), evidence);
    var i :| 0 <= i < |cs| && row[i] == selected;
    assert cs[i] in cs && cs[i].positive;
    assert cs[i].letter in PositiveLetters(cs);
    var p :| 0 <= p < |PositiveLetters(cs)| && PositiveLetters(cs)[p] == cs[i].letter;
    assert inst.positives[p] == inst.candidates[i];
    KeepMembers(inst.positives, Reward.ToSet(inst.candidates), true);
    hide Lettered, PositiveLetters, Letters, Names;
    assert inst.positives[p] in PoolPositives(inst);
  }

  /** A list built from a catalog and its positives always yields an accepted target, unless the evidence is
      mislabelled or there is no positive. */
  lemma {:induction false} AttachedIsTeachable(r: Attached, catalog: seq<Item>, positives: set<string>,
                                               terms: seq<string>, n: nat, wanted: nat, hardNegatives: int,
                                               evidence: seq<string>)
    requires Exact(r, catalog, positives, terms, n, wanted, hardNegatives)
    requires forall x :: x in evidence ==> x != "" && x !in Letters(r.candidates)
    ensures Teachable(InstanceOf(r, evidence))
    ensures r.selected != [] ==> PoolPositives(InstanceOf(r, evidence)) != []
  {
    LettersDistinct(r.candidates, ItemsOf(r.candidates), IdSet(r.selected));
    if r.selected != [] {
      SelectedInPool(r.candidates, ItemsOf(r.candidates), r.selected[0], IdSet(r.selected), evidence);
    }
    hide Exact, Lettered, PositiveLetters, Letters, Names, Distinct;
    OrdinaryInstances(InstanceOf(r, evidence));
  }
}
