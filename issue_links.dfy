/** Reconciling an organization's issue links after its edit form is saved:
    the issues ticked on the form are the complete new set; links are created
    for new ones and removed for the ones no longer ticked. */
module IssueLinks {

  /** Python `list.index(x)`: where `x` first occurs. */
  function FirstIndex(s: seq<string>, x: string): (i: nat)
    requires x in s
    ensures i < |s| && s[i] == x && x !in s[..i]
  {
    if s[0] == x then 0
    else
      var j := FirstIndex(s[1..], x);
      assert s[..j + 1] == [s[0]] + s[1..][..j];
      j + 1
  }

  /** Python `list.remove(x)`: drops the first occurrence of `x`. */
  function RemoveFirst(s: seq<string>, x: string): (r: seq<string>)
    requires x in s
    ensures multiset(r) == multiset(s) - multiset{x}
    ensures |r| == |s| - 1
  {
    assert s == [s[0]] + s[1..];
    if s[0] == x then s[1..]
    else [s[0]] + RemoveFirst(s[1..], x)
  }

  /** The occurrence dropped is the first one: the result is the list with
      the entry at `x`'s first index cut out, the rest in order. */
  lemma {:induction false} RemoveFirstAtFirstIndex(s: seq<string>, x: string)
    requires x in s
    ensures RemoveFirst(s, x) == s[..FirstIndex(s, x)] + s[FirstIndex(s, x) + 1..]
  {
    if s[0] == x {
      assert FirstIndex(s, x) == 0;
    } else {
      var t := s[1..];
      var j := FirstIndex(t, x);
      assert RemoveFirst(s, x) == [s[0]] + RemoveFirst(t, x);
      assert FirstIndex(s, x) == j + 1;
      assert RemoveFirst(t, x) == t[..j] + t[j + 1..] by {
        RemoveFirstAtFirstIndex(t, x);
      }
      CutAfterHead(s, j);
    }
  }

  /** Cutting entry `j` out of the tail is cutting entry `j + 1` out of the
      whole list. */
  lemma CutAfterHead(s: seq<string>, j: nat)
    requires j + 1 < |s|
    ensures [s[0]] + (s[1..][..j] + s[1..][j + 1..]) == s[..j + 1] + s[j + 2..]
  {
    assert s[..j + 1] == [s[0]] + s[1..][..j];
    assert s[j + 2..] == s[1..][j + 1..];
  }

  /** The loop's invariant once the ticked issues `seen` have been walked:
      the links made so far are the ones ticked beyond the prior list, and
      what remains of the prior list is what was not ticked. */
  predicate Walked(prior: seq<string>, seen: seq<string>, linked: seq<string>, remaining: seq<string>) {
    && multiset(linked) == multiset(seen) - multiset(prior)
    && multiset(remaining) == multiset(prior) - multiset(seen)
  }

  /** A ticked issue still on what is left of the prior list is struck off
      it; nothing new is linked. */
  lemma StepStruck(prior: seq<string>, seen: seq<string>, issue: string, linked: seq<string>, remaining: seq<string>)
    requires Walked(prior, seen, linked, remaining) && issue in remaining
    ensures Walked(prior, seen + [issue], linked, RemoveFirst(remaining, issue))
  {
    assert multiset(seen + [issue]) == multiset(seen) + multiset{issue};
    assert issue in multiset(remaining);
    StruckCounts(multiset(prior), multiset(seen), issue);
  }

  /** The multiset arithmetic of a struck issue: one that the prior list
      still holds beyond the ticks so far. */
  lemma StruckCounts(p: multiset<string>, m: multiset<string>, issue: string)
    requires (p - m)[issue] > 0
    ensures (m + multiset{issue}) - p == m - p
    ensures (p - m) - multiset{issue} == p - (m + multiset{issue})
  {
    forall y ensures ((p - m) - multiset{issue})[y] == (p - (m + multiset{issue}))[y] { }
    forall y ensures ((m + multiset{issue}) - p)[y] == (m - p)[y] { }
  }

  /** A ticked issue not on what is left of the prior list is linked. */
  lemma StepLinked(prior: seq<string>, seen: seq<string>, issue: string, linked: seq<string>, remaining: seq<string>)
    requires Walked(prior, seen, linked, remaining) && issue !in remaining
    ensures Walked(prior, seen + [issue], linked + [issue], remaining)
  {
    assert multiset(seen + [issue]) == multiset(seen) + multiset{issue};
    assert multiset(linked + [issue]) == multiset(linked) + multiset{issue};
    assert issue !in multiset(remaining);
    LinkedCounts(multiset(prior), multiset(seen), issue);
  }

  /** The multiset arithmetic of a linked issue: one the prior list no
      longer holds beyond the ticks so far. */
  lemma LinkedCounts(p: multiset<string>, m: multiset<string>, issue: string)
    requires (p - m)[issue] == 0
    ensures (m - p) + multiset{issue} == (m + multiset{issue}) - p
    ensures p - m == p - (m + multiset{issue})
  {
    forall y ensures (p - m)[y] == (p - (m + multiset{issue}))[y] { }
    forall y ensures ((m - p) + multiset{issue})[y] == ((m + multiset{issue}) - p)[y] { }
  }

  /** Walks the selected issues: one already linked is struck off the prior
      list, any other is linked; whatever is left of the prior list is then
      unlinked, in its order. */
  method ReconcileIssueLinks(prior: seq<string>, selected: seq<string>)
    returns (linked: seq<string>, unlinked: seq<string>)
    ensures multiset(linked) == multiset(selected) - multiset(prior)
    ensures multiset(unlinked) == multiset(prior) - multiset(selected)
    ensures selected == [] ==> unlinked == prior
    ensures forall x :: x in linked ==> x in selected
    ensures forall x :: x in unlinked ==> x in prior
  {
    var remaining := prior;
    linked := [];
    // the walk only runs when some issue was ticked
    if selected != [] {
      var i := 0;
      while i < |selected|
        invariant 0 <= i <= |selected|
        invariant Walked(prior, selected[..i], linked, remaining)
      {
        var issue := selected[i];
        assert selected[..i + 1] == selected[..i] + [issue];
        if issue in remaining {
          StepStruck(prior, selected[..i], issue, linked, remaining);
          remaining := RemoveFirst(remaining, issue);
        } else {
          StepLinked(prior, selected[..i], issue, linked, remaining);
          linked := linked + [issue];
        }
        i := i + 1;
      }
      assert selected[..|selected|] == selected;
    }
    unlinked := remaining;
    WalkedAll(prior, selected, linked, unlinked);
  }

  /** Once every ticked issue is walked, the invariant is the method's
      promise: the multiset differences, and only known issues on each side. */
  lemma WalkedAll(prior: seq<string>, selected: seq<string>, linked: seq<string>, unlinked: seq<string>)
    requires Walked(prior, selected, linked, unlinked)
    ensures multiset(linked) == multiset(selected) - multiset(prior)
    ensures multiset(unlinked) == multiset(prior) - multiset(selected)
    ensures forall x :: x in linked ==> x in selected
    ensures forall x :: x in unlinked ==> x in prior
  {
    DifferenceMembers(linked, selected, prior);
    DifferenceMembers(unlinked, prior, selected);
  }

  /** What is left of `a` once `b` is taken away holds only members of `a`. */
  lemma DifferenceMembers(d: seq<string>, a: seq<string>, b: seq<string>)
    requires multiset(d) == multiset(a) - multiset(b)
    ensures forall x :: x in d ==> x in a
  {
    forall x | x in d ensures x in a {
      assert x in multiset(d);
    }
  }

  /** No value occurs twice. */
  predicate Distinct(s: seq<string>) {
    forall i, j :: 0 <= i < j < |s| ==> s[i] != s[j]
  }

  lemma DistinctCount(s: seq<string>, x: string)
    requires Distinct(s)
    ensures multiset(s)[x] <= 1
  {
    if s != [] {
      assert s == [s[0]] + s[1..];
      DistinctCount(s[1..], x);
      if s[0] == x {
        assert x !in s[1..];
      }
    }
  }

  /** For lists without repeats the multiset statements become the set rules:
      an issue is linked exactly when it is ticked and was not linked, is
      unlinked exactly when it was linked and is no longer ticked, and an
      issue in both lists is left alone. */
  lemma {:induction false} ReconcileAsSets(prior: seq<string>, selected: seq<string>,
                                          linked: seq<string>, unlinked: seq<string>, x: string)
    requires Distinct(prior) && Distinct(selected)
    requires multiset(linked) == multiset(selected) - multiset(prior)
    requires multiset(unlinked) == multiset(prior) - multiset(selected)
    ensures x in linked <==> x in selected && x !in prior
    ensures x in unlinked <==> x in prior && x !in selected
    ensures x in selected && x in prior ==> x !in linked && x !in unlinked
  {
    DistinctCount(prior, x);
    DistinctCount(selected, x);
    assert x in linked <==> multiset(linked)[x] > 0;
    assert x in unlinked <==> multiset(unlinked)[x] > 0;
    assert x in selected <==> multiset(selected)[x] > 0;
    assert x in prior <==> multiset(prior)[x] > 0;
  }

  /** A repeated tick of an issue that was linked once produces a second
      link: `remove` strikes off only one occurrence, so the second tick
      finds nothing left to strike and links the issue again. */
  lemma RepeatedTickLinksAgain(prior: seq<string>, selected: seq<string>,
                               linked: seq<string>, unlinked: seq<string>, x: string)
    requires multiset(linked) == multiset(selected) - multiset(prior)
    requires multiset(unlinked) == multiset(prior) - multiset(selected)
    requires multiset(prior)[x] == 1 && multiset(selected)[x] == 2
    ensures x in linked && multiset(linked)[x] == 1
    ensures x !in unlinked
  {
    assert x in multiset(linked);
    assert x !in multiset(unlinked);
  }
}
