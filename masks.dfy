/** The selection mask: a sequence of flags parallel to the connector list,
    and what removing, picking and updating the flagged entries does. */
module SelectionMask {

  /** Number of set flags. */
  function CountTrue(m: seq<bool>): (n: nat)
    ensures n <= |m|
  {
    if m == [] then 0 else (if m[0] then 1 else 0) + CountTrue(m[1..])
  }

  function AllFalse(n: nat): (m: seq<bool>)
  {
    seq(n, _ => false)
  }

  function AllTrue(n: nat): (m: seq<bool>)
  {
    seq(n, _ => true)
  }

  /** The mask that flags index h alone. */
  function OneHot(n: nat, h: nat): (m: seq<bool>)
  {
    seq(n, i => i == h)
  }

  /** The entries of s whose flag is clear, in their original order. */
  function Kept<T>(s: seq<T>, m: seq<bool>): (r: seq<T>)
    requires |s| == |m|
  {
    if s == [] then [] else (if m[0] then [] else [s[0]]) + Kept(s[1..], m[1..])
  }

  /** The entries of s whose flag is set, in their original order. */
  function Picked<T>(s: seq<T>, m: seq<bool>): (r: seq<T>)
    requires |s| == |m|
  {
    if s == [] then [] else (if m[0] then [s[0]] else []) + Picked(s[1..], m[1..])
  }

  /** The mask after removing its set flags (std::remove_if on the flag itself). */
  function RemoveSet(m: seq<bool>): (r: seq<bool>)
  {
    if m == [] then [] else (if m[0] then [] else [false]) + RemoveSet(m[1..])
  }

  /** s with f applied at every flagged index. */
  function ApplyAt<T>(s: seq<T>, m: seq<bool>, f: T -> T): (r: seq<T>)
    requires |s| == |m|
    ensures |r| == |s|
  {
    seq(|s|, i requires 0 <= i < |s| => if m[i] then f(s[i]) else s[i])
  }

  /** Kept drops exactly as many entries as there are set flags. */
  lemma {:induction false} KeptLength<T>(s: seq<T>, m: seq<bool>)
    requires |s| == |m|
    ensures |Kept(s, m)| == |s| - CountTrue(m)
    ensures |Picked(s, m)| == CountTrue(m)
  {
    if s != [] {
      KeptLength(s[1..], m[1..]);
    }
  }

  /** Every entry is either kept or picked, never both, never lost. */
  lemma {:induction false} KeptPickedPartition<T>(s: seq<T>, m: seq<bool>)
    requires |s| == |m|
    ensures multiset(Kept(s, m)) + multiset(Picked(s, m)) == multiset(s)
  {
    if s != [] {
      KeptPickedPartition(s[1..], m[1..]);
      var k, p := Kept(s[1..], m[1..]), Picked(s[1..], m[1..]);
      assert s == [s[0]] + s[1..];
      assert multiset(s) == multiset{s[0]} + multiset(s[1..]);
      if m[0] {
        assert Picked(s, m) == [s[0]] + p && Kept(s, m) == k;
      } else {
        assert Kept(s, m) == [s[0]] + k && Picked(s, m) == p;
      }
    }
  }

  /** Order is kept: an unflagged entry lands at the position given by the
      number of unflagged entries before it. */
  lemma {:induction false} KeptIndex<T>(s: seq<T>, m: seq<bool>, i: nat)
    requires |s| == |m| && i < |s| && !m[i]
    ensures i - CountTrue(m[..i]) < |Kept(s, m)|
    ensures Kept(s, m)[i - CountTrue(m[..i])] == s[i]
  {
    KeptLength(s, m);
    CountTrueSplit(m, i);
    CountTrueBound(m[i..]);
    if i > 0 {
      KeptIndex(s[1..], m[1..], i - 1);
      assert m[1..][..i - 1] == m[..i][1..];
      assert m[..i][0] == m[0];
    }
  }

  lemma {:induction false} CountTrueSplit(m: seq<bool>, i: nat)
    requires i <= |m|
    ensures CountTrue(m) == CountTrue(m[..i]) + CountTrue(m[i..])
  {
    if i > 0 {
      CountTrueSplit(m[1..], i - 1);
      assert m[1..][..i - 1] == m[..i][1..];
      assert m[1..][i - 1..] == m[i..];
    } else {
      assert m[..0] == [];
      assert m[0..] == m;
    }
  }

  lemma CountTrueBound(m: seq<bool>)
    requires m != [] && !m[0]
    ensures CountTrue(m) < |m|
  {
  }

  /** Removing the flagged connectors and removing the set flags leave
      sequences of the same length, and the remaining mask is all clear. */
  lemma {:induction false} RemoveSetAligned<T>(s: seq<T>, m: seq<bool>)
    requires |s| == |m|
    ensures RemoveSet(m) == AllFalse(|Kept(s, m)|)
  {
    if s != [] {
      RemoveSetAligned(s[1..], m[1..]);
    }
  }

  /** An all-clear mask keeps everything. */
  lemma {:induction false} KeptNone<T>(s: seq<T>)
    ensures Kept(s, AllFalse(|s|)) == s
  {
    if s != [] {
      KeptNone(s[1..]);
      assert AllFalse(|s|)[1..] == AllFalse(|s| - 1);
    }
  }

  /** An all-clear mask picks nothing. */
  lemma {:induction false} PickedNone<T>(s: seq<T>)
    ensures Picked(s, AllFalse(|s|)) == []
  {
    if s != [] {
      PickedNone(s[1..]);
      assert AllFalse(|s|)[1..] == AllFalse(|s| - 1);
    }
  }

  /** A one-hot mask removes exactly the entry at h. */
  lemma {:induction false} KeptOneHot<T>(s: seq<T>, h: nat)
    requires h < |s|
    ensures Kept(s, OneHot(|s|, h)) == s[..h] + s[h + 1..]
  {
    if h == 0 {
      KeptNone(s[1..]);
      assert OneHot(|s|, 0)[1..] == AllFalse(|s| - 1);
    } else {
      KeptOneHot(s[1..], h - 1);
      assert OneHot(|s|, h)[1..] == OneHot(|s| - 1, h - 1);
      assert s[..h] == [s[0]] + s[1..][..h - 1];
    }
  }

  /** A one-hot mask picks exactly the entry at h. */
  lemma {:induction false} PickedOneHot<T>(s: seq<T>, h: nat)
    requires h < |s|
    ensures Picked(s, OneHot(|s|, h)) == [s[h]]
  {
    if h == 0 {
      PickedNone(s[1..]);
      assert OneHot(|s|, 0)[1..] == AllFalse(|s| - 1);
    } else {
      PickedOneHot(s[1..], h - 1);
      assert OneHot(|s|, h)[1..] == OneHot(|s| - 1, h - 1);
    }
  }

  /** Picking from a prefix one entry longer adds that entry when it is flagged. */
  lemma {:induction false} PickedSnoc<T>(s: seq<T>, m: seq<bool>, i: nat)
    requires |s| == |m| && i < |s|
    ensures Picked(s[..i + 1], m[..i + 1]) == Picked(s[..i], m[..i]) + (if m[i] then [s[i]] else [])
  {
    if i > 0 {
      PickedSnoc(s[1..], m[1..], i - 1);
      assert s[1..][..i] == s[..i + 1][1..];
      assert m[1..][..i] == m[..i + 1][1..];
      assert s[1..][..i - 1] == s[..i][1..];
      assert m[1..][..i - 1] == m[..i][1..];
    }
  }

  /** One step of removing flagged entries from the back: with the suffix after
      i already filtered, dropping entry i when it is flagged filters from i on. */
  lemma KeptBackwardStep<T>(s: seq<T>, m: seq<bool>, i: nat, cur: seq<T>)
    requires |s| == |m| && i < |s|
    requires cur == s[..i + 1] + Kept(s[i + 1..], m[i + 1..])
    ensures i < |cur|
    ensures (if m[i] then cur[..i] + cur[i + 1..] else cur) == s[..i] + Kept(s[i..], m[i..])
  {
  }

  /** Setting one flag moves the count by the difference between the new and the old flag. */
  lemma {:induction false} CountTrueUpdate(m: seq<bool>, i: nat, b: bool)
    requires i < |m|
    ensures CountTrue(m[i := b]) == CountTrue(m) - (if m[i] then 1 else 0) + (if b then 1 else 0)
  {
    if i > 0 {
      CountTrueUpdate(m[1..], i - 1, b);
      assert m[i := b][1..] == m[1..][i - 1 := b];
    }
  }

  /** The first picked entry sits at the first flagged index. */
  lemma {:induction false} PickedFirst<T>(s: seq<T>, m: seq<bool>, i: nat)
    requires |s| == |m| && i < |s| && m[i]
    requires Picked(s[..i], m[..i]) == []
    ensures Picked(s, m) != [] && Picked(s, m)[0] == s[i]
  {
    if i > 0 {
      assert s[..i][1..] == s[1..][..i - 1];
      assert m[..i][1..] == m[1..][..i - 1];
      assert !m[0];
      PickedFirst(s[1..], m[1..], i - 1);
    }
  }

  /** Picking after applying f at the flagged indices is applying f to what is picked. */
  lemma {:induction false} PickedApplyAt<T>(s: seq<T>, m: seq<bool>, f: T -> T)
    requires |s| == |m|
    ensures |Picked(ApplyAt(s, m, f), m)| == |Picked(s, m)|
    ensures forall k :: 0 <= k < |Picked(s, m)| ==> Picked(ApplyAt(s, m, f), m)[k] == f(Picked(s, m)[k])
  {
    if s != [] {
      assert ApplyAt(s, m, f)[1..] == ApplyAt(s[1..], m[1..], f);
      PickedApplyAt(s[1..], m[1..], f);
    }
  }
}
