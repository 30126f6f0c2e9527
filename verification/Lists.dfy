/** Lists without repeats: what Python keeps of a list it passes through a dict or a set. */
module Lists {
  /** The distinct elements of a list, in order of first occurrence. */
  function Distinct<T(==,!new)>(s: seq<T>): (d: seq<T>)
    ensures forall x :: x in d <==> x in s
    ensures forall i, j :: 0 <= i < j < |d| ==> d[i] != d[j]
  {
    if s == [] then []
    else
      var d := Distinct(s[..|s| - 1]);
      assert s == s[..|s| - 1] + [s[|s| - 1]];
      if s[|s| - 1] in d then d else d + [s[|s| - 1]]
  }

  /** Where the k-th distinct element first occurs: everything before it is an earlier one. */
  lemma {:induction false} DistinctAt<T(!new)>(s: seq<T>, k: nat) returns (i: nat)
    requires k < |Distinct(s)|
    ensures i < |s| && s[i] == Distinct(s)[k]
    ensures forall j :: 0 <= j < i ==> s[j] in Distinct(s)[..k]
  {
    var n := |s| - 1;
    var d := Distinct(s[..n]);
    if k < |d| {
      i := DistinctAt(s[..n], k);
      forall j | 0 <= j < i ensures s[j] in Distinct(s)[..k] {
        assert s[..n][j] in d[..k];
        assert Distinct(s)[..k] == d[..k];
      }
    } else {
      i := n;
      assert Distinct(s)[..k] == d;
      forall j | 0 <= j < i ensures s[j] in d {
        assert s[..n][j] in s[..n];
      }
    }
  }

  lemma {:induction false} FirstIsDistinct<T(!new)>(s: seq<T>)
    requires s != []
    ensures |Distinct(s)| > 0 && Distinct(s)[0] == s[0]
  {
    if |s| > 1 {
      FirstIsDistinct(s[..|s| - 1]);
    }
  }

  ghost predicate Unrepeated<T(!new)>(s: seq<T>) {
    forall i, j :: 0 <= i < j < |s| ==> s[i] != s[j]
  }

  lemma {:induction false} DistinctOfUnrepeated<T(!new)>(s: seq<T>)
    requires Unrepeated(s)
    ensures Distinct(s) == s
  {
    if s != [] {
      var n := |s| - 1;
      DistinctOfUnrepeated(s[..n]);
      assert s == s[..n] + [s[n]];
    }
  }

  /** `at` are the positions of the flags that are set, in order. */
  ghost predicate Positions(at: seq<nat>, flags: seq<bool>) {
    && (forall j :: 0 <= j < |at| ==> at[j] < |flags| && flags[at[j]])
    && (forall i, j :: 0 <= i < j < |at| ==> at[i] < at[j])
    && (forall k: nat :: k < |flags| && flags[k] ==> k in at)
  }

  lemma PositionsMore(at: seq<nat>, flags: seq<bool>, flag: bool)
    requires Positions(at, flags)
    ensures Positions(if flag then at + [|flags|] else at, flags + [flag])
  {
    var all, more := if flag then at + [|flags|] else at, flags + [flag];
    forall k: nat | k < |more| && more[k] ensures k in all {
      if k < |flags| {
        assert flags[k] && k in at;
      } else {
        assert all[|at|] == |flags|;
      }
    }
  }

  function Shifted(at: seq<nat>): (r: seq<nat>)
    ensures |r| == |at| && forall i :: 0 <= i < |at| ==> r[i] == at[i] + 1
  {
    seq(|at|, i requires 0 <= i < |at| => at[i] + 1)
  }

  lemma ShiftedHas(at: seq<nat>, k: nat)
    ensures k in at ==> k + 1 in Shifted(at)
  {
    if k in at {
      var i :| 0 <= i < |at| && at[i] == k;
      assert Shifted(at)[i] == k + 1;
    }
  }

  lemma PositionsCons(at: seq<nat>, flag: bool, flags: seq<bool>)
    requires Positions(at, flags)
    ensures Positions(if flag then [0] + Shifted(at) else Shifted(at), [flag] + flags)
  {
    var all: seq<nat>, more := if flag then [0] + Shifted(at) else Shifted(at), [flag] + flags;
    forall k: nat | k < |more| && more[k] ensures k in all {
      if k > 0 {
        assert flags[k - 1] && k - 1 in at;
        ShiftedHas(at, k - 1);
        assert k in Shifted(at);
      } else {
        assert all[0] == 0;
      }
    }
  }
}
