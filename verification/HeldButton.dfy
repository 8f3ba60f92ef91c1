/** The button a drag holds down: whoever presses it owes its release, on every way out. */
module HeldButton {

  datatype Call = Press(ok: bool) | Release(ok: bool)

  /** A press that succeeded and that nothing was done about since. */
  predicate Owed(calls: seq<Call>) {
    if calls == [] then false
    else
      match calls[|calls| - 1]
      case Press(ok) => ok || Owed(calls[..|calls| - 1])
      case Release(_) => false
  }

  ghost predicate ReleasedLater(calls: seq<Call>, i: nat) {
    exists j :: i < j < |calls| && calls[j].Release?
  }

  /** Nothing is owed exactly if every successful press was followed by a release. */
  lemma {:induction false} NothingOwed(calls: seq<Call>)
    ensures !Owed(calls) <==> forall i :: 0 <= i < |calls| && calls[i] == Press(true) ==> ReleasedLater(calls, i)
  {
    if calls != [] {
      var n, front := |calls| - 1, calls[..|calls| - 1];
      NothingOwed(front);
      forall i | 0 <= i < n
        ensures ReleasedLater(calls, i) <==> calls[n].Release? || ReleasedLater(front, i)
      {
        if calls[n].Release? {
          assert i < n < |calls| && calls[n].Release?;
        } else if ReleasedLater(front, i) {
          var j :| i < j < |front| && front[j].Release?;
          assert calls[j].Release?;
        }
      }
      if Owed(front) && calls[n].Press? {
        var i :| 0 <= i < |front| && front[i] == Press(true) && !ReleasedLater(front, i);
        assert calls[i] == Press(true) && !ReleasedLater(calls, i);
      }
    }
  }

  /** No release was asked for that was not owed. */
  predicate Disciplined(calls: seq<Call>) {
    forall k :: 0 <= k < |calls| && calls[k].Release? ==> Owed(calls[..k])
  }

  lemma DisciplinedPush(calls: seq<Call>, call: Call)
    requires Disciplined(calls) && (call.Release? ==> Owed(calls))
    ensures Disciplined(calls + [call])
  {
    var all := calls + [call];
    assert forall k :: 0 <= k <= |calls| ==> all[..k] == calls[..k];
    assert calls[..|calls|] == calls;
  }

  class Button {
    var held: bool
    ghost var calls: seq<Call>  // what was asked of the input, and how it answered

    ghost predicate Valid()
      reads this
    {
      held == Owed(calls) && Disciplined(calls)
    }

    constructor ()
      ensures Valid() && calls == []
    {
      held, calls := false, [];
    }

    method PressDown()
      requires Valid()
      modifies this
      ensures Valid() && exists ok :: calls == old(calls) + [Press(ok)]
    {
      var ok: bool := *;
      DisciplinedPush(calls, Press(ok));
      assert (calls + [Press(ok)])[..|calls|] == calls;
      calls := calls + [Press(ok)];
      if ok { held := true; }
    }

    /** Lets go at most once per hold, whatever the input answers. */
    method LetGo()
      requires Valid()
      modifies this
      ensures Valid() && !Owed(calls)
      ensures if old(held) then exists ok :: calls == old(calls) + [Release(ok)] else calls == old(calls)
    {
      if held {
        held := false;
        var ok: bool := *;
        DisciplinedPush(calls, Release(ok));
        calls := calls + [Release(ok)];
      }
    }

    /** However the holder is left, every press that succeeded has been followed by a release. */
    method Destroy()
      requires Valid()
      modifies this
      ensures forall i :: 0 <= i < |calls| && calls[i] == Press(true) ==> ReleasedLater(calls, i)
      ensures old(calls) <= calls && Disciplined(calls)
    {
      LetGo();
      NothingOwed(calls);
    }
  }
}
