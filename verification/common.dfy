/** Small sequence helpers shared by the game modules: an optional value, and
    the two ways the scene takes objects out of an engine group (removing one
    object, and keeping those a flag does not mark). */
module Common {

  datatype Option<T> = None | Some(value: T)

  /** No object occurs twice in the group. */
  ghost predicate Distinct<T>(s: seq<T>)
  {
    forall i, j :: 0 <= i < j < |s| ==> s[i] != s[j]
  }

  /** `s` with every occurrence of `x` taken out, the others kept in order:
      what removing an object from an engine group does. */
  function Without<T(==)>(s: seq<T>, x: T): (r: seq<T>)
    ensures forall k :: 0 <= k < |r| ==> r[k] in s && r[k] != x
    ensures forall k :: 0 <= k < |s| && s[k] != x ==> s[k] in r
    ensures |r| <= |s|
    ensures x !in s ==> r == s
  {
    if s == [] then []
    else (if s[0] == x then [] else [s[0]]) + Without(s[1..], x)
  }

  /** The tail of a group without repeats has none either, and does not
      hold the head. */
  lemma DistinctTail<T>(s: seq<T>)
    requires Distinct(s) && s != []
    ensures Distinct(s[1..]) && s[0] !in s[1..]
  {
    forall i, j | 0 <= i < j < |s[1..]| ensures s[1..][i] != s[1..][j] {
      assert s[1..][i] == s[i + 1] && s[1..][j] == s[j + 1];
    }
    forall k | 0 <= k < |s[1..]| ensures s[1..][k] != s[0] {
      assert s[1..][k] == s[k + 1];
    }
  }

  /** Putting an element not yet present in front keeps a group free of
      repetitions. */
  lemma DistinctCons<T>(x: T, s: seq<T>)
    requires Distinct(s) && x !in s
    ensures Distinct([x] + s)
  {
    var r := [x] + s;
    forall i, j | 0 <= i < j < |r| ensures r[i] != r[j] {
      assert r[j] == s[j - 1];
      if i > 0 {
        assert r[i] == s[i - 1];
      }
    }
  }

  /** Removing an object that occurs once shortens the group by exactly one
      and keeps it free of repetitions. */
  lemma {:induction false} WithoutDistinct<T>(s: seq<T>, x: T)
    requires Distinct(s)
    ensures Distinct(Without(s, x))
    ensures x in s ==> |Without(s, x)| == |s| - 1
  {
    if s != [] {
      DistinctTail(s);
      WithoutDistinct(s[1..], x);
      var rest := Without(s[1..], x);
      if s[0] != x {
        assert Without(s, x) == [s[0]] + rest;
        assert s[0] !in rest;
        DistinctCons(s[0], rest);
        assert x in s ==> x in s[1..];
      } else {
        assert Without(s, x) == rest;
      }
    }
  }

  /** The elements of `s` whose flag in `drop` is false, in order. */
  function Select<T>(s: seq<T>, drop: seq<bool>): (r: seq<T>)
    requires |drop| == |s|
    ensures |r| <= |s|
    decreases |s|
  {
    if s == [] then []
    else
      var last := |s| - 1;
      Select(s[..last], drop[..last]) + (if drop[last] then [] else [s[last]])
  }

  /** Selecting from a group extended by one element extends the selection
      by that element exactly when its flag keeps it. */
  lemma SelectSnoc<T>(s: seq<T>, drop: seq<bool>, x: T, d: bool)
    requires |drop| == |s|
    ensures Select(s + [x], drop + [d]) == Select(s, drop) + (if d then [] else [x])
  {
    assert (s + [x])[..|s|] == s;
    assert (drop + [d])[..|s|] == drop;
  }

  /** One step of a scan that builds a selection front to back. */
  lemma SelectStep<T>(s: seq<T>, drop: seq<bool>, i: nat, kept: seq<T>)
    requires |drop| == |s| && i < |s|
    requires kept == Select(s[..i], drop[..i])
    ensures (if drop[i] then kept else kept + [s[i]]) == Select(s[..i + 1], drop[..i + 1])
  {
    assert s[..i + 1] == s[..i] + [s[i]] && drop[..i + 1] == drop[..i] + [drop[i]];
    SelectSnoc(s[..i], drop[..i], s[i], drop[i]);
  }

  /** Every element of a selection comes from a position whose flag keeps it. */
  lemma {:induction false} SelectFrom<T>(s: seq<T>, drop: seq<bool>)
    requires |drop| == |s|
    ensures forall k :: 0 <= k < |Select(s, drop)| ==>
      exists i :: 0 <= i < |s| && !drop[i] && s[i] == Select(s, drop)[k]
    decreases |s|
  {
    if s != [] {
      var last := |s| - 1;
      SelectFrom(s[..last], drop[..last]);
      var front := Select(s[..last], drop[..last]);
      var r := Select(s, drop);
      assert r == front + (if drop[last] then [] else [s[last]]);
      forall k | 0 <= k < |r|
        ensures exists i :: 0 <= i < |s| && !drop[i] && s[i] == r[k]
      {
        if k < |front| {
          assert r[k] == front[k];
          var i :| 0 <= i < |s[..last]| && !drop[..last][i] && s[..last][i] == front[k];
          assert s[i] == r[k];
        } else {
          assert !drop[last] && r[k] == s[last];
        }
      }
    } else {
      assert Select(s, drop) == [];
    }
  }

  /** Every element whose flag keeps it is in the selection. */
  lemma {:induction false} SelectKeeps<T>(s: seq<T>, drop: seq<bool>)
    requires |drop| == |s|
    ensures forall i :: 0 <= i < |s| && !drop[i] ==> s[i] in Select(s, drop)
    decreases |s|
  {
    if s != [] {
      var last := |s| - 1;
      SelectKeeps(s[..last], drop[..last]);
      var r := Select(s, drop);
      assert r == Select(s[..last], drop[..last]) + (if drop[last] then [] else [s[last]]);
      forall i | 0 <= i < |s| && !drop[i] ensures s[i] in r {
        if i < last {
          assert s[..last][i] == s[i] && !drop[..last][i];
        }
      }
    }
  }

  /** A selection from a group without repetitions has none either. */
  lemma {:induction false} SelectDistinct<T>(s: seq<T>, drop: seq<bool>)
    requires |drop| == |s|
    requires Distinct(s)
    ensures Distinct(Select(s, drop))
    decreases |s|
  {
    if s != [] {
      var last := |s| - 1;
      SelectDistinct(s[..last], drop[..last]);
      SelectFrom(s[..last], drop[..last]);
      var front := Select(s[..last], drop[..last]);
      if !drop[last] {
        forall k | 0 <= k < |front| ensures front[k] != s[last] {
          var i :| 0 <= i < |s[..last]| && !drop[..last][i] && s[..last][i] == front[k];
          assert s[i] == front[k];
        }
        var r := front + [s[last]];
        forall i, j | 0 <= i < j < |r| ensures r[i] != r[j] {
          if j == |r| - 1 {
            assert r[i] == front[i];
          } else {
            assert r[i] == front[i] && r[j] == front[j];
          }
        }
      }
    }
  }

  /** Appending an element not yet present keeps a group free of repetitions. */
  lemma DistinctAppend<T>(s: seq<T>, x: T)
    requires Distinct(s) && x !in s
    ensures Distinct(s + [x])
  {
    var r := s + [x];
    forall i, j | 0 <= i < j < |r| ensures r[i] != r[j] {
      if j == |s| {
        assert r[i] == s[i];
      }
    }
  }
}
