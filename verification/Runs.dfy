/** Runs as sequences of steps: what has occurred in them. */
module Runs {

  ghost predicate Occurs<T>(steps: seq<T>, step: T) {
    exists i :: 0 <= i < |steps| && steps[i] == step
  }

  lemma OccursSnoc<T>(steps: seq<T>, step: T)
    requires steps != []
    ensures Occurs(steps, step) <==> Occurs(steps[..|steps| - 1], step) || steps[|steps| - 1] == step
  {
    var front := steps[..|steps| - 1];
    if Occurs(front, step) {
      var i :| 0 <= i < |front| && front[i] == step;
      assert steps[i] == step;
    }
    if i :| 0 <= i < |steps| && steps[i] == step {
      assert i < |front| ==> front[i] == step;
    }
  }

  lemma NothingOccurs<T>()
    ensures forall step: T :: !Occurs([], step)
  {
  }

  /** Added with the step at i, and neither removed nor cleared since. */
  predicate AddedAt<T(==)>(steps: seq<T>, i: nat, add: T, remove: T, clear: T) {
    && i < |steps| && steps[i] == add
    && forall j :: i < j < |steps| ==> steps[j] != remove && steps[j] != clear
  }

  ghost predicate AddedSince<T>(steps: seq<T>, add: T, remove: T, clear: T) {
    exists i :: AddedAt(steps, i, add, remove, clear)
  }

  lemma AddedAtSnoc<T>(steps: seq<T>, i: nat, add: T, remove: T, clear: T)
    requires i + 1 < |steps|
    ensures AddedAt(steps, i, add, remove, clear) <==>
            var last := steps[|steps| - 1];
            AddedAt(steps[..|steps| - 1], i, add, remove, clear) && last != remove && last != clear
  {
    var front := steps[..|steps| - 1];
    assert forall j :: 0 <= j < |front| ==> front[j] == steps[j];
    assert steps == front + [steps[|front|]];
  }

  lemma AddedSinceSnoc<T>(steps: seq<T>, add: T, remove: T, clear: T)
    requires steps != []
    ensures AddedSince(steps, add, remove, clear) <==>
            var last := steps[|steps| - 1];
            last == add || (AddedSince(steps[..|steps| - 1], add, remove, clear) && last != remove && last != clear)
  {
    var front, last := steps[..|steps| - 1], steps[|steps| - 1];
    assert AddedAt(steps, |front|, add, remove, clear) <==> last == add;
    forall i: nat | i < |front|
      ensures AddedAt(steps, i, add, remove, clear) <==>
              AddedAt(front, i, add, remove, clear) && last != remove && last != clear
    {
      AddedAtSnoc(steps, i, add, remove, clear);
    }
    assert forall i: nat :: i > |front| ==> !AddedAt(steps, i, add, remove, clear);
    assert forall i: nat :: i >= |front| ==> !AddedAt(front, i, add, remove, clear);
    hide AddedAt;
  }

  lemma NothingAdded<T>()
    ensures forall add: T, remove, clear :: !AddedSince([], add, remove, clear)
  {
  }
}
