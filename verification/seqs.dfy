/** Order-preserving queries over the rows of a table: the shapes behind the repository finders
    (`findBy...` returns matching rows in table order) and behind `stream().filter().findFirst()`. */
module Seqs {
  import opened Wrappers

  /** The elements of `s` that satisfy `p`, in their original order. */
  function Filter<T>(s: seq<T>, p: T -> bool): (r: seq<T>)
    ensures |r| <= |s|
    ensures forall x :: x in r ==> x in s && p(x)
    ensures forall x :: x in s && p(x) ==> x in r
    ensures r == [] <==> forall x :: x in s ==> !p(x)
  {
    if s == [] then []
    else if p(s[0]) then [s[0]] + Filter(s[1..], p)
    else Filter(s[1..], p)
  }

  /** The position of the first element of `s` that satisfies `p`, if any. */
  function FirstIndex<T>(s: seq<T>, p: T -> bool): (r: Option<nat>)
    ensures r.Some? ==> r.value < |s| && p(s[r.value])
    ensures r.Some? ==> forall j :: 0 <= j < r.value ==> !p(s[j])
    ensures r.None? <==> forall j :: 0 <= j < |s| ==> !p(s[j])
  {
    if s == [] then None
    else if p(s[0]) then Some(0)
    else match FirstIndex(s[1..], p)
      case None => None
      case Some(k) => Some(k + 1)
  }

  /** The first element of `s` that satisfies `p`, if any (`filter(p).findFirst()`). */
  function FindFirst<T>(s: seq<T>, p: T -> bool): (r: Option<T>)
    ensures r.Some? ==> r.value in s && p(r.value)
    ensures r.None? <==> forall x :: x in s ==> !p(x)
  {
    match FirstIndex(s, p)
    case None => None
    case Some(k) => Some(s[k])
  }

  /** Some position of `s` passes `p`. */
  predicate OnePasses<T>(s: seq<T>, p: T -> bool)
  {
    exists k :: 0 <= k < |s| && p(s[k])
  }

  /** Two distinct positions of `s` pass `p`. */
  predicate TwoPass<T>(s: seq<T>, p: T -> bool)
  {
    exists i, j :: 0 <= i < j < |s| && p(s[i]) && p(s[j])
  }

  lemma OnePassesTail<T>(s: seq<T>, p: T -> bool)
    requires s != []
    ensures OnePasses(s, p) <==> p(s[0]) || OnePasses(s[1..], p)
  {
    if OnePasses(s, p) && !p(s[0]) {
      var k :| 0 <= k < |s| && p(s[k]);
      assert s[1..][k - 1] == s[k];
    }
    if OnePasses(s[1..], p) {
      var k :| 0 <= k < |s[1..]| && p(s[1..][k]);
      assert s[k + 1] == s[1..][k];
    }
  }

  lemma TwoPassTail<T>(s: seq<T>, p: T -> bool)
    requires s != []
    ensures TwoPass(s, p) <==> (p(s[0]) && OnePasses(s[1..], p)) || TwoPass(s[1..], p)
  {
    var t := s[1..];
    if TwoPass(s, p) {
      var i, j :| 0 <= i < j < |s| && p(s[i]) && p(s[j]);
      if i == 0 {
        assert t[j - 1] == s[j];
      } else {
        assert t[i - 1] == s[i] && t[j - 1] == s[j];
      }
    }
    if p(s[0]) && OnePasses(t, p) {
      var k :| 0 <= k < |t| && p(t[k]);
      assert s[k + 1] == t[k];
    }
    if TwoPass(t, p) {
      var i, j :| 0 <= i < j < |t| && p(t[i]) && p(t[j]);
      assert s[i + 1] == t[i] && s[j + 1] == t[j];
    }
  }

  /** The filtered sequence has two or more elements exactly when two positions of `s` pass. */
  lemma {:induction false} FilterHasTwo<T>(s: seq<T>, p: T -> bool)
    ensures |Filter(s, p)| >= 2 <==> TwoPass(s, p)
  {
    if s != [] {
      var t := s[1..];
      FilterHasTwo(t, p);
      TwoPassTail(s, p);
      if p(s[0]) {
        assert Filter(s, p) == [s[0]] + Filter(t, p);
        OnePassesTail(s, p);
        assert Filter(t, p) == [] <==> !OnePasses(t, p) by {
          if OnePasses(t, p) {
            var k :| 0 <= k < |t| && p(t[k]);
            assert t[k] in t;
          }
        }
      } else {
        assert Filter(s, p) == Filter(t, p);
        if TwoPass(s, p) {
          assert !(p(s[0]) && OnePasses(t, p));
        }
      }
    }
  }

  /** Filtering a sequence one element longer extends the filtered sequence by that element
      exactly when it passes. */
  lemma {:induction false} FilterSnoc<T>(s: seq<T>, x: T, p: T -> bool)
    ensures Filter(s + [x], p) == Filter(s, p) + (if p(x) then [x] else [])
  {
    if s == [] {
      assert s + [x] == [x];
    } else {
      assert (s + [x])[1..] == s[1..] + [x];
      FilterSnoc(s[1..], x, p);
    }
  }
}
