/** The two record types of the ICRP Publication 107 database and the value-level
    operations on radiation records: concatenation, yield scaling, appending and
    the minimum-energy cut. */
module ICRP07Records {

  /** Decay record of one nuclide: half-life and decay mode as read (text), and the
      daughters with their branch ratios as two index-aligned lists. */
  datatype DecayData = DecayData(
    halfLife: string,
    decayMode: string,
    daughterNuclideNames: seq<string>,
    daughterNuclideRatios: seq<real>)
  {
    /** Names and ratios are pushed in pairs, so the lists have equal length. */
    predicate Valid() { |daughterNuclideNames| == |daughterNuclideRatios| }
  }

  /** Photon spectrum of a nuclide: energies and yields, index-aligned. */
  datatype RadiationData = RadiationData(photonEnergies: seq<real>, photonYields: seq<real>)
  {
    predicate Valid() { |photonEnergies| == |photonYields| }
  }

  /** Every spectrum of a map has index-aligned lists. */
  predicate AllValid(m: map<string, RadiationData>)
  {
    forall n :: n in m ==> m[n].Valid()
  }

  /** A default-constructed RadiationData: both lists empty. */
  const Empty := RadiationData([], [])

  /** The default `yieldMultiplier` of AppendRadiationData. */
  const DefaultYieldMultiplier: real := 1.0

  /** The entries of `b` placed after those of `a`, list by list. */
  function Concat(a: RadiationData, b: RadiationData): (r: RadiationData)
    ensures |r.photonEnergies| == |a.photonEnergies| + |b.photonEnergies|
    ensures |r.photonYields| == |a.photonYields| + |b.photonYields|
    ensures a.Valid() && b.Valid() ==> r.Valid()
  {
    RadiationData(a.photonEnergies + b.photonEnergies, a.photonYields + b.photonYields)
  }

  /** Every element of `s` multiplied by `m`. */
  function ScaleAll(s: seq<real>, m: real): (r: seq<real>)
    ensures |r| == |s|
    ensures forall i :: 0 <= i < |s| ==> r[i] == s[i] * m
  {
    seq(|s|, i requires 0 <= i < |s| => s[i] * m)
  }

  /** The record with every yield multiplied by `m`; energies untouched. */
  function Scaled(d: RadiationData, m: real): (r: RadiationData)
    ensures r.photonEnergies == d.photonEnergies && |r.photonYields| == |d.photonYields|
    ensures d.Valid() ==> r.Valid()
  {
    RadiationData(d.photonEnergies, ScaleAll(d.photonYields, m))
  }

  /** What AppendRadiationData leaves in `original`: its old entries untouched,
      then the new energies unchanged and the new yields times `yieldMultiplier`. */
  function Appended(original: RadiationData, newData: RadiationData, yieldMultiplier: real): (r: RadiationData)
    ensures |r.photonEnergies| == |original.photonEnergies| + |newData.photonEnergies|
    ensures r.photonEnergies[..|original.photonEnergies|] == original.photonEnergies
    ensures r.photonEnergies[|original.photonEnergies|..] == newData.photonEnergies
    ensures |r.photonYields| == |original.photonYields| + |newData.photonYields|
    ensures r.photonYields[..|original.photonYields|] == original.photonYields
    ensures forall i :: 0 <= i < |newData.photonYields| ==>
              r.photonYields[|original.photonYields| + i] == newData.photonYields[i] * yieldMultiplier
    ensures original.Valid() && newData.Valid() ==> r.Valid()
  {
    Concat(original, Scaled(newData, yieldMultiplier))
  }

  /** The first `n` entries of each list. */
  function Take(d: RadiationData, n: nat): (r: RadiationData)
    requires n <= |d.photonEnergies| && n <= |d.photonYields|
    ensures r.Valid() && |r.photonEnergies| == n
  {
    RadiationData(d.photonEnergies[..n], d.photonYields[..n])
  }

  /** The index-aligned pairs of `d` whose energy is at least `minimumEnergy`,
      in their original order: what RemoveRadiationDataByMinimumEnergy leaves. */
  function KeptAbove(d: RadiationData, minimumEnergy: real): (r: RadiationData)
    requires d.Valid()
    ensures r.Valid() && |r.photonEnergies| <= |d.photonEnergies|
    ensures forall i :: 0 <= i < |r.photonEnergies| ==> r.photonEnergies[i] >= minimumEnergy
    decreases |d.photonEnergies|
  {
    if |d.photonEnergies| == 0 then Empty
    else
      var n := |d.photonEnergies| - 1;
      var kept := KeptAbove(Take(d, n), minimumEnergy);
      if d.photonEnergies[n] < minimumEnergy then kept
      else RadiationData(kept.photonEnergies + [d.photonEnergies[n]], kept.photonYields + [d.photonYields[n]])
  }

  /** Erasing position `i` of `s`, whose tail from `i` is the tail of `t` from `j`. */
  lemma EraseStep<T>(s: seq<T>, i: nat, t: seq<T>, j: nat)
    requires i < |s| && j <= |t| && s[i..] == t[j..]
    ensures j < |t| && s[i] == t[j]
    ensures var e := s[..i] + s[i + 1..]; |e| == |s| - 1 && e[..i] == s[..i] && e[i..] == t[j + 1..]
  {
    assert s[i..][0] == t[j..][0];
    assert s[i + 1..] == s[i..][1..];
  }

  /** Stepping over position `i` of `s`, whose tail from `i` is the tail of `t` from `j`. */
  lemma KeepStep<T>(s: seq<T>, i: nat, t: seq<T>, j: nat)
    requires i < |s| && j <= |t| && s[i..] == t[j..]
    ensures j < |t| && s[i] == t[j]
    ensures s[..i + 1] == s[..i] + [s[i]] && s[i + 1..] == t[j + 1..]
  {
    assert s[i..][0] == t[j..][0];
    assert s[i + 1..] == s[i..][1..];
  }

  /** One more entry of `d` through the cut: kept if its energy reaches the threshold. */
  lemma KeptAboveStep(d: RadiationData, j: nat, minimumEnergy: real)
    requires d.Valid() && j < |d.photonEnergies|
    ensures var k := KeptAbove(Take(d, j), minimumEnergy);
            KeptAbove(Take(d, j + 1), minimumEnergy)
            == if d.photonEnergies[j] < minimumEnergy then k
               else RadiationData(k.photonEnergies + [d.photonEnergies[j]], k.photonYields + [d.photonYields[j]])
  {
    assert Take(Take(d, j + 1), j) == Take(d, j);
  }

  /** A non-empty record is its prefix without the last entry, plus that entry. */
  lemma TakeLast(d: RadiationData)
    requires d.Valid() && 0 < |d.photonEnergies|
    ensures var n := |d.photonEnergies| - 1;
            var t := Take(d, n);
            d == RadiationData(t.photonEnergies + [d.photonEnergies[n]], t.photonYields + [d.photonYields[n]])
  {
    var n := |d.photonEnergies| - 1;
    assert d.photonEnergies[..n] + [d.photonEnergies[n]] == d.photonEnergies;
    assert d.photonYields[..n] + [d.photonYields[n]] == d.photonYields;
  }

  /** The (energy, yield) pairs of a record. */
  function Pairs(d: RadiationData): (r: seq<(real, real)>)
    requires d.Valid()
    ensures |r| == |d.photonEnergies|
    ensures forall i :: 0 <= i < |r| ==> r[i] == (d.photonEnergies[i], d.photonYields[i])
  {
    seq(|d.photonEnergies|, i requires 0 <= i < |d.photonEnergies| => (d.photonEnergies[i], d.photonYields[i]))
  }

  /** Number of energies in `s` that are at least `minimumEnergy`. */
  function CountAtLeast(s: seq<real>, minimumEnergy: real): nat
  {
    if s == [] then 0
    else CountAtLeast(s[..|s| - 1], minimumEnergy) + (if s[|s| - 1] >= minimumEnergy then 1 else 0)
  }

  /** Sum of a list of yields, added front to back. */
  function Sum(s: seq<real>): real
  {
    if s == [] then 0.0 else Sum(s[..|s| - 1]) + s[|s| - 1]
  }

  predicate NonNegative(s: seq<real>)
  {
    forall i :: 0 <= i < |s| ==> s[i] >= 0.0
  }

  // ---------------------------------------------------------------------------
  // Concatenation and scaling

  lemma ConcatAssociative(a: RadiationData, b: RadiationData, c: RadiationData)
    ensures Concat(Concat(a, b), c) == Concat(a, Concat(b, c))
  {
    assert (a.photonEnergies + b.photonEnergies) + c.photonEnergies
        == a.photonEnergies + (b.photonEnergies + c.photonEnergies);
    assert (a.photonYields + b.photonYields) + c.photonYields == a.photonYields + (b.photonYields + c.photonYields);
  }

  lemma ConcatEmpty(a: RadiationData)
    ensures Concat(Empty, a) == a && Concat(a, Empty) == a
  {
    assert [] + a.photonEnergies == a.photonEnergies && a.photonEnergies + [] == a.photonEnergies;
    assert [] + a.photonYields == a.photonYields && a.photonYields + [] == a.photonYields;
  }

  /** Scaling by the default multiplier changes nothing. */
  lemma ScaledByOne(d: RadiationData)
    ensures Scaled(d, DefaultYieldMultiplier) == d
  {
    assert ScaleAll(d.photonYields, 1.0) == d.photonYields;
  }

  /** Scaling twice multiplies the factors. */
  lemma ScaledTwice(d: RadiationData, m1: real, m2: real)
    ensures Scaled(Scaled(d, m1), m2) == Scaled(d, m1 * m2)
  {
    forall i | 0 <= i < |d.photonYields|
      ensures ScaleAll(ScaleAll(d.photonYields, m1), m2)[i] == ScaleAll(d.photonYields, m1 * m2)[i]
    {
      assert (d.photonYields[i] * m1) * m2 == d.photonYields[i] * (m1 * m2);
    }
  }

  lemma ScaleAllConcat(a: seq<real>, b: seq<real>, m: real)
    ensures ScaleAll(a + b, m) == ScaleAll(a, m) + ScaleAll(b, m)
  {
    var l, r := ScaleAll(a + b, m), ScaleAll(a, m) + ScaleAll(b, m);
    assert |l| == |r|;
    forall i | 0 <= i < |l| ensures l[i] == r[i] {
      if i < |a| { assert (a + b)[i] == a[i]; } else { assert (a + b)[i] == b[i - |a|]; }
    }
  }

  lemma ScaleAllPrefix(s: seq<real>, n: nat, m: real)
    requires n <= |s|
    ensures ScaleAll(s, m)[..n] == ScaleAll(s[..n], m)
  {
    var l, r := ScaleAll(s, m)[..n], ScaleAll(s[..n], m);
    assert |l| == |r|;
    forall i | 0 <= i < n ensures l[i] == r[i] { }
  }

  lemma ScaledConcat(a: RadiationData, b: RadiationData, m: real)
    ensures Scaled(Concat(a, b), m) == Concat(Scaled(a, m), Scaled(b, m))
  {
    ScaleAllConcat(a.photonYields, b.photonYields, m);
  }

  /** Scaling a record that starts with `head` scaled by `w`. */
  lemma ScaledHead(head: RadiationData, w: real, ratio: real, tail: RadiationData)
    ensures Concat(Scaled(head, w * ratio), Scaled(tail, ratio)) == Scaled(Concat(Scaled(head, w), tail), ratio)
  {
    ScaledTwice(head, w, ratio);
    ScaledConcat(Scaled(head, w), tail, ratio);
  }

  /** Appending to an empty record with the default multiplier gives the record itself. */
  lemma AppendedToEmpty(d: RadiationData)
    ensures Appended(Empty, d, DefaultYieldMultiplier) == d
  {
    ScaledByOne(d);
    ConcatEmpty(d);
  }

  // ---------------------------------------------------------------------------
  // The minimum-energy cut

  /** Entries below the threshold in `b` are dropped independently of those of
      `a`: the cut keeps the order of concatenated records. */
  lemma {:induction false} KeptAboveConcat(a: RadiationData, b: RadiationData, minimumEnergy: real)
    requires a.Valid() && b.Valid()
    ensures KeptAbove(Concat(a, b), minimumEnergy)
         == Concat(KeptAbove(a, minimumEnergy), KeptAbove(b, minimumEnergy))
    decreases |b.photonEnergies|
  {
    var ab := Concat(a, b);
    if |b.photonEnergies| == 0 {
      assert ab == a by { ConcatEmpty(a); assert b == Empty; }
      ConcatEmpty(KeptAbove(a, minimumEnergy));
    } else {
      var n := |b.photonEnergies| - 1;
      var m := |ab.photonEnergies| - 1;
      assert Take(ab, m) == Concat(a, Take(b, n));
      KeptAboveConcat(a, Take(b, n), minimumEnergy);
      assert ab.photonEnergies[m] == b.photonEnergies[n] && ab.photonYields[m] == b.photonYields[n];
      var ka, kb := KeptAbove(a, minimumEnergy), KeptAbove(Take(b, n), minimumEnergy);
      if b.photonEnergies[n] >= minimumEnergy {
        assert (ka.photonEnergies + kb.photonEnergies) + [b.photonEnergies[n]]
            == ka.photonEnergies + (kb.photonEnergies + [b.photonEnergies[n]]);
        assert (ka.photonYields + kb.photonYields) + [b.photonYields[n]] == ka.photonYields + (kb.photonYields + [b.photonYields[n]]);
      }
    }
  }

  /** The cut looks at energies only, so it commutes with yield scaling. */
  lemma {:induction false} KeptAboveScaled(d: RadiationData, m: real, minimumEnergy: real)
    requires d.Valid()
    ensures KeptAbove(Scaled(d, m), minimumEnergy) == Scaled(KeptAbove(d, minimumEnergy), m)
    decreases |d.photonEnergies|
  {
    if |d.photonEnergies| > 0 {
      var n := |d.photonEnergies| - 1;
      ScaleAllPrefix(d.photonYields, n, m);
      assert Take(Scaled(d, m), n) == Scaled(Take(d, n), m);
      KeptAboveScaled(Take(d, n), m, minimumEnergy);
      var k := KeptAbove(Take(d, n), minimumEnergy);
      ScaleAllConcat(k.photonYields, [d.photonYields[n]], m);
      assert ScaleAll([d.photonYields[n]], m) == [d.photonYields[n] * m] by {
        assert ScaleAll([d.photonYields[n]], m)[0] == d.photonYields[n] * m;
      }
      assert Scaled(d, m).photonEnergies[n] == d.photonEnergies[n];
      assert Scaled(d, m).photonYields[n] == d.photonYields[n] * m;
      TakeLast(Scaled(d, m));
    }
  }

  /** Cutting an appended record equals appending the cut records. */
  lemma KeptAboveAppended(a: RadiationData, b: RadiationData, yieldMultiplier: real, minimumEnergy: real)
    requires a.Valid() && b.Valid()
    ensures KeptAbove(Appended(a, b, yieldMultiplier), minimumEnergy)
         == Appended(KeptAbove(a, minimumEnergy), KeptAbove(b, minimumEnergy), yieldMultiplier)
  {
    KeptAboveConcat(a, Scaled(b, yieldMultiplier), minimumEnergy);
    KeptAboveScaled(b, yieldMultiplier, minimumEnergy);
  }

  /** A record whose energies all reach the threshold is left as it is. */
  lemma {:induction false} KeptAboveUnchanged(d: RadiationData, minimumEnergy: real)
    requires d.Valid()
    requires forall i :: 0 <= i < |d.photonEnergies| ==> d.photonEnergies[i] >= minimumEnergy
    ensures KeptAbove(d, minimumEnergy) == d
    decreases |d.photonEnergies|
  {
    if |d.photonEnergies| > 0 {
      var n := |d.photonEnergies| - 1;
      var t := Take(d, n);
      assert forall i :: 0 <= i < n ==> t.photonEnergies[i] >= minimumEnergy by {
        assert forall i :: 0 <= i < n ==> t.photonEnergies[i] == d.photonEnergies[i];
      }
      KeptAboveUnchanged(t, minimumEnergy);
      TakeLast(d);
    }
  }

  /** Applying the cut twice with the same threshold equals applying it once. */
  lemma KeptAboveIdempotent(d: RadiationData, minimumEnergy: real)
    requires d.Valid()
    ensures KeptAbove(KeptAbove(d, minimumEnergy), minimumEnergy) == KeptAbove(d, minimumEnergy)
  {
    KeptAboveUnchanged(KeptAbove(d, minimumEnergy), minimumEnergy);
  }

  /** A pair survives the cut exactly when it is a pair of the input whose
      energy reaches the threshold. */
  lemma {:induction false} KeptAboveMembership(d: RadiationData, minimumEnergy: real, p: (real, real))
    requires d.Valid()
    ensures p in Pairs(KeptAbove(d, minimumEnergy)) <==> p in Pairs(d) && p.0 >= minimumEnergy
    decreases |d.photonEnergies|
  {
    if |d.photonEnergies| > 0 {
      var n := |d.photonEnergies| - 1;
      var t := Take(d, n);
      KeptAboveMembership(t, minimumEnergy, p);
      assert Pairs(d) == Pairs(t) + [(d.photonEnergies[n], d.photonYields[n])];
      var k := KeptAbove(t, minimumEnergy);
      if d.photonEnergies[n] >= minimumEnergy {
        var k' := RadiationData(k.photonEnergies + [d.photonEnergies[n]], k.photonYields + [d.photonYields[n]]);
        assert Pairs(k') == Pairs(k) + [(d.photonEnergies[n], d.photonYields[n])];
      }
    }
  }

  /** The cut keeps exactly as many entries as there are energies at or above the threshold. */
  lemma {:induction false} KeptAboveCount(d: RadiationData, minimumEnergy: real)
    requires d.Valid()
    ensures |KeptAbove(d, minimumEnergy).photonEnergies| == CountAtLeast(d.photonEnergies, minimumEnergy)
    decreases |d.photonEnergies|
  {
    if |d.photonEnergies| > 0 {
      var n := |d.photonEnergies| - 1;
      KeptAboveCount(Take(d, n), minimumEnergy);
    }
  }

  // ---------------------------------------------------------------------------
  // Total yield

  lemma {:induction false} SumConcat(a: seq<real>, b: seq<real>)
    ensures Sum(a + b) == Sum(a) + Sum(b)
    decreases |b|
  {
    if b == [] {
      assert a + b == a;
    } else {
      assert (a + b)[..|a + b| - 1] == a + b[..|b| - 1];
      SumConcat(a, b[..|b| - 1]);
    }
  }

  lemma {:induction false} SumScaled(s: seq<real>, m: real)
    ensures Sum(ScaleAll(s, m)) == Sum(s) * m
    decreases |s|
  {
    if s != [] {
      ScaleAllPrefix(s, |s| - 1, m);
      SumScaled(s[..|s| - 1], m);
    }
  }

  /** The total yield of an appended record: the old total plus the new total times the multiplier. */
  lemma TotalYieldAppended(a: RadiationData, b: RadiationData, yieldMultiplier: real)
    ensures Sum(Appended(a, b, yieldMultiplier).photonYields) == Sum(a.photonYields) + Sum(b.photonYields) * yieldMultiplier
  {
    SumConcat(a.photonYields, ScaleAll(b.photonYields, yieldMultiplier));
    SumScaled(b.photonYields, yieldMultiplier);
  }

  /** With non-negative photonYields the cut can only lower the total yield, never below zero. */
  lemma {:induction false} TotalYieldKeptAbove(d: RadiationData, minimumEnergy: real)
    requires d.Valid() && NonNegative(d.photonYields)
    ensures NonNegative(KeptAbove(d, minimumEnergy).photonYields)
    ensures 0.0 <= Sum(KeptAbove(d, minimumEnergy).photonYields) <= Sum(d.photonYields)
    decreases |d.photonEnergies|
  {
    if |d.photonEnergies| > 0 {
      var n := |d.photonEnergies| - 1;
      TotalYieldKeptAbove(Take(d, n), minimumEnergy);
      var k := KeptAbove(Take(d, n), minimumEnergy);
      if d.photonEnergies[n] >= minimumEnergy {
        assert (k.photonYields + [d.photonYields[n]])[..|k.photonYields|] == k.photonYields;
      }
    }
  }
}
