/** The list operations behind the reminder diff that the appointment editor
    writes back into an appointment: filtering by membership, List.Remove
    (first occurrence), and the diff itself. Reminders are offsets in ticks. */
module ReminderLists {

  /** The elements x of s, in order, for which (x in e) == inside. */
  function Select(s: seq<int>, e: seq<int>, inside: bool): (r: seq<int>)
    ensures |r| <= |s|
  {
    if s == [] then [] else (if (s[0] in e) == inside then [s[0]] else []) + Select(s[1..], e, inside)
  }

  /** What Select keeps: exactly the elements of s on the requested side of e. */
  lemma {:induction false} SelectMembers(s: seq<int>, e: seq<int>, inside: bool)
    ensures forall x :: x in Select(s, e, inside) <==> x in s && (x in e) == inside
  {
    if s != [] {
      SelectMembers(s[1..], e, inside);
      assert s == [s[0]] + s[1..];
    }
  }

  /** The elements of s that occur in e. */
  function Keep(s: seq<int>, e: seq<int>): seq<int> {
    Select(s, e, true)
  }

  /** The elements of s that do not occur in e. */
  function Drop(s: seq<int>, e: seq<int>): seq<int> {
    Select(s, e, false)
  }

  lemma {:induction false} SelectAppend(a: seq<int>, b: seq<int>, e: seq<int>, inside: bool)
    ensures Select(a + b, e, inside) == Select(a, e, inside) + Select(b, e, inside)
  {
    if a == [] {
      assert a + b == b;
    } else {
      var head := if (a[0] in e) == inside then [a[0]] else [];
      assert (a + b)[0] == a[0];
      assert (a + b)[1..] == a[1..] + b;
      assert Select(a + b, e, inside) == head + Select(a[1..] + b, e, inside);
      SelectAppend(a[1..], b, e, inside);
      assert Select(a, e, inside) == head + Select(a[1..], e, inside);
    }
  }

  /** One more element appended to s: what a loop over s adds at step i. */
  lemma SelectSnoc(s: seq<int>, i: int, e: seq<int>, inside: bool)
    requires 0 <= i < |s|
    ensures Select(s[..i + 1], e, inside)
         == Select(s[..i], e, inside) + (if (s[i] in e) == inside then [s[i]] else [])
  {
    assert s[..i + 1] == s[..i] + [s[i]];
    SelectAppend(s[..i], [s[i]], e, inside);
  }

  /** Selecting by e or by e2 is the same when they agree on the elements of s. */
  lemma {:induction false} SelectSameMembers(s: seq<int>, e: seq<int>, e2: seq<int>, inside: bool)
    requires forall i :: 0 <= i < |s| ==> (s[i] in e <==> s[i] in e2)
    ensures Select(s, e, inside) == Select(s, e2, inside)
  {
    if s != [] {
      assert forall i :: 0 <= i < |s[1..]| ==> s[1..][i] == s[i + 1];
      SelectSameMembers(s[1..], e, e2, inside);
    }
  }

  /** Selecting everything leaves the sequence as it is. */
  lemma {:induction false} SelectAll(s: seq<int>, e: seq<int>, inside: bool)
    requires forall i :: 0 <= i < |s| ==> (s[i] in e) == inside
    ensures Select(s, e, inside) == s
  {
    if s != [] {
      assert forall i :: 0 <= i < |s[1..]| ==> s[1..][i] == s[i + 1];
      SelectAll(s[1..], e, inside);
      assert s == [s[0]] + s[1..];
    }
  }

  /** List.Remove: drop the first element equal to v, if there is one. */
  function RemoveFirst(s: seq<int>, v: int): (r: seq<int>)
    ensures v !in s ==> r == s
    ensures v in s ==> |r| == |s| - 1
    ensures multiset(r) == multiset(s) - multiset{v}
  {
    if s == [] then []
    else if s[0] == v then (assert s == [s[0]] + s[1..]; s[1..])
    else (assert s == [s[0]] + s[1..]; [s[0]] + RemoveFirst(s[1..], v))
  }

  /** The removal loop: List.Remove for each element of vs in turn. */
  function RemoveEach(s: seq<int>, vs: seq<int>): seq<int>
    decreases vs
  {
    if vs == [] then s else RemoveEach(RemoveFirst(s, vs[0]), vs[1..])
  }

  /** Removing values that the first element is not among does not touch it. */
  lemma {:induction false} RemoveEachSkipsHead(x: int, t: seq<int>, vs: seq<int>)
    requires x !in vs
    ensures RemoveEach([x] + t, vs) == [x] + RemoveEach(t, vs)
    decreases vs
  {
    if vs != [] {
      assert ([x] + t)[0] == x && ([x] + t)[1..] == t;
      assert RemoveFirst([x] + t, vs[0]) == [x] + RemoveFirst(t, vs[0]);
      RemoveEachSkipsHead(x, RemoveFirst(t, vs[0]), vs[1..]);
    }
  }

  /** Removing, first occurrence by first occurrence, exactly the elements of s
      that are not in e leaves the elements of s that are in e, in order. */
  lemma {:induction false} RemoveEachDropped(s: seq<int>, e: seq<int>)
    ensures RemoveEach(s, Drop(s, e)) == Keep(s, e)
  {
    if s != [] {
      var x, t := s[0], s[1..];
      assert s == [x] + t;
      RemoveEachDropped(t, e);
      if x in e {
        assert Drop(s, e) == Drop(t, e);
        SelectMembers(t, e, false);
        assert x !in Drop(t, e);
        RemoveEachSkipsHead(x, t, Drop(t, e));
      } else {
        assert Drop(s, e) == [x] + Drop(t, e);
        assert RemoveFirst(s, x) == t;
      }
    }
  }

  /** PopulateReminders as the source computes it: the editor's reminders split
      into those the appointment has and those it has not; when they differ from
      the appointment's list, the appointment's reminders that are not kept are
      removed one by one and the new ones appended. */
  function Merged(current: seq<int>, editor: seq<int>): seq<int> {
    var olds := Keep(editor, current);
    var news := Drop(editor, current);
    if |olds| != |current| || |news| != 0 then RemoveEach(current, Drop(current, olds)) + news
    else current
  }

  /** The diff's result: the appointment's reminders still in the editor, in
      their order, followed by the editor's new reminders, in editor order; the
      list is untouched when the editor matches it. */
  lemma MergedResult(current: seq<int>, editor: seq<int>)
    ensures Merged(current, editor) ==
      if |Keep(editor, current)| != |current| || Drop(editor, current) != []
      then Keep(current, editor) + Drop(editor, current)
      else current
  {
    var olds := Keep(editor, current);
    SelectMembers(editor, current, true);
    assert olds == Select(editor, current, true);
    forall i | 0 <= i < |current| ensures current[i] in olds <==> current[i] in editor {
      var x := current[i];
      assert x in Select(editor, current, true) <==> x in editor && (x in current) == true;
    }
    SelectSameMembers(current, olds, editor, false);
    RemoveEachDropped(current, editor);
  }

  predicate NoDuplicates(s: seq<int>) {
    forall i, j :: 0 <= i < j < |s| ==> s[i] != s[j]
  }

  function Elements(s: seq<int>): set<int> {
    set x | x in s
  }

  lemma {:induction false} ElementsBound(s: seq<int>)
    ensures |Elements(s)| <= |s|
    ensures NoDuplicates(s) ==> |Elements(s)| == |s|
  {
    if s != [] {
      ElementsBound(s[1..]);
      assert Elements(s) == {s[0]} + Elements(s[1..]);
      if NoDuplicates(s) {
        assert s[0] !in Elements(s[1..]) by {
          forall j | 0 <= j < |s[1..]| ensures s[1..][j] != s[0] {
            assert s[1..][j] == s[j + 1];
          }
        }
        assert NoDuplicates(s[1..]) by {
          forall i, j | 0 <= i < j < |s[1..]| ensures s[1..][i] != s[1..][j] {
            assert s[1..][i] == s[i + 1] && s[1..][j] == s[j + 1];
          }
        }
      }
    }
  }

  /** A subset at least as large as its superset is the whole of it. */
  lemma SubsetOfSameSize(a: set<int>, b: set<int>)
    requires a <= b && |b| <= |a|
    ensures a == b
  {
    assert b == a + (b - a);
    assert a * (b - a) == {};
    assert |b - a| == 0;
  }

  /** When the editor holds no duplicates, skipping the write-back loses
      nothing: the appointment always ends with its kept reminders followed by
      the editor's new ones. */
  lemma MergedWithoutDuplicates(current: seq<int>, editor: seq<int>)
    requires NoDuplicates(editor)
    ensures Merged(current, editor) == Keep(current, editor) + Drop(editor, current)
  {
    MergedResult(current, editor);
    if !(|Keep(editor, current)| != |current| || Drop(editor, current) != []) {
      SelectMembers(editor, current, false);
      assert forall x :: x in editor ==> x in current;
      SelectAll(editor, current, true);
      ElementsBound(editor);
      ElementsBound(current);
      SubsetOfSameSize(Elements(editor), Elements(current));
      forall i | 0 <= i < |current| ensures current[i] in editor {
        assert current[i] in Elements(current);
      }
      SelectAll(current, editor, true);
      assert Drop(editor, current) == [];
    }
  }
}
