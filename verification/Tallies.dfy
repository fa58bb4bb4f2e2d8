/** Sums over a sequence whose entries are updated one at a time. */
module Tallies {

  function Tally<T>(s: seq<T>, w: T -> nat): nat {
    if s == [] then 0 else w(s[0]) + Tally(s[1..], w)
  }

  lemma {:induction false} TallyUpdate<T>(s: seq<T>, k: nat, x: T, w: T -> nat)
    requires k < |s|
    ensures Tally(s[k := x], w) == Tally(s, w) - w(s[k]) + w(x)
  {
    if k == 0 {
      assert s[k := x][1..] == s[1..];
    } else {
      assert s[k := x][1..] == s[1..][k - 1 := x];
      TallyUpdate(s[1..], k - 1, x, w);
    }
  }

  lemma {:induction false} TallyAtLeast<T>(s: seq<T>, k: nat, w: T -> nat)
    requires k < |s|
    ensures Tally(s, w) >= w(s[k])
  {
    if k > 0 {
      TallyAtLeast(s[1..], k - 1, w);
    }
  }

  lemma {:induction false} TallyZero<T>(s: seq<T>, w: T -> nat)
    ensures Tally(s, w) == 0 <==> forall k :: 0 <= k < |s| ==> w(s[k]) == 0
  {
    if s != [] {
      TallyZero(s[1..], w);
      assert forall k :: 1 <= k < |s| ==> s[k] == s[1..][k - 1];
      assert forall k :: 0 <= k < |s| - 1 ==> s[1..][k] == s[k + 1];
    }
  }

  lemma {:induction false} TallyBounded<T>(s: seq<T>, w: T -> nat, most: nat)
    requires forall k :: 0 <= k < |s| ==> w(s[k]) <= most
    ensures Tally(s, w) <= most * |s|
  {
    if s != [] {
      TallyBounded(s[1..], w, most);
      assert most * |s| == most * (|s| - 1) + most;
    }
  }

  lemma {:induction false} TallyOnes<T>(s: seq<T>, w: T -> nat)
    requires forall k :: 0 <= k < |s| ==> w(s[k]) == 1
    ensures Tally(s, w) == |s|
  {
    if s != [] {
      TallyOnes(s[1..], w);
    }
  }

  lemma {:induction false} TallyPush<T>(s: seq<T>, x: T, w: T -> nat)
    ensures Tally(s + [x], w) == Tally(s, w) + w(x)
  {
    if s == [] {
      assert s + [x] == [x];
    } else {
      assert (s + [x])[1..] == s[1..] + [x];
      TallyPush(s[1..], x, w);
    }
  }

  lemma {:induction false} TallyRemove<T>(s: seq<T>, k: nat, w: T -> nat)
    requires k < |s|
    ensures Tally(s[..k] + s[k + 1..], w) == Tally(s, w) - w(s[k])
  {
    if k == 0 {
      assert s[..k] + s[k + 1..] == s[1..];
    } else {
      var without := s[..k] + s[k + 1..];
      assert without[0] == s[0] && without[1..] == s[1..][..k - 1] + s[1..][k..];
      TallyRemove(s[1..], k - 1, w);
    }
  }

  lemma {:induction false} TallyAppend<T>(s: seq<T>, t: seq<T>, w: T -> nat)
    ensures Tally(s + t, w) == Tally(s, w) + Tally(t, w)
  {
    if s == [] {
      assert s + t == t;
    } else {
      assert (s + t)[1..] == s[1..] + t;
      TallyAppend(s[1..], t, w);
    }
  }
}
