/**
 * The names the generator gives to what it creates: Python's `str(n)` and
 * `f"{n:03}"` on natural numbers, the ".NNN" unique-name allocator
 * `get_unique_name`, Python's `str.replace`, and the bone and link names
 * built from the armature's name.
 */
module Names {

  predicate IsDigit(c: char) { '0' <= c <= '9' }

  predicate AllDigits(s: string) { forall i :: 0 <= i < |s| ==> IsDigit(s[i]) }

  function DigitChar(d: nat): (c: char)
    requires d < 10
    ensures IsDigit(c) && c as int - '0' as int == d
  {
    ('0' as int + d) as char
  }

  /** Python's `str(n)` for a natural number: its decimal digits, no leading zero. */
  function NatToString(n: nat): (s: string)
    ensures 1 <= |s| && AllDigits(s)
  {
    if n < 10 then [DigitChar(n)] else NatToString(n / 10) + [DigitChar(n % 10)]
  }

  /** The number a string of decimal digits denotes (leading zeros allowed). */
  function DecimalValue(s: string): nat
    requires AllDigits(s)
  {
    if s == [] then 0
    else DecimalValue(s[..|s| - 1]) * 10 + (s[|s| - 1] as int - '0' as int)
  }

  function Pow10(m: nat): (p: nat)
    ensures p >= 1
  {
    if m == 0 then 1 else 10 * Pow10(m - 1)
  }

  /** Reading back the digits `str(n)` writes gives n. */
  lemma {:induction false} NatToStringValue(n: nat)
    ensures DecimalValue(NatToString(n)) == n
  {
    if n >= 10 {
      var s := NatToString(n);
      assert s[..|s| - 1] == NatToString(n / 10);
      NatToStringValue(n / 10);
    }
  }

  /** `str(n)` has at most m digits exactly when n < 10^m. */
  lemma {:induction false} NatToStringLength(n: nat, m: nat)
    requires m >= 1
    ensures n < Pow10(m) <==> |NatToString(n)| <= m
  {
    if n >= 10 && m >= 2 {
      NatToStringLength(n / 10, m - 1);
    }
  }

  lemma {:induction false} NatToStringInjective(i: nat, j: nat)
    ensures NatToString(i) == NatToString(j) ==> i == j
  {
    NatToStringValue(i);
    NatToStringValue(j);
  }

  function Zeros(m: nat): (z: string)
    ensures |z| == m && AllDigits(z)
  {
    if m == 0 then [] else ['0'] + Zeros(m - 1)
  }

  lemma {:induction false} LeadingZeroValue(t: string)
    requires AllDigits(t)
    ensures AllDigits(['0'] + t) && DecimalValue(['0'] + t) == DecimalValue(t)
  {
    if t != [] {
      var s := ['0'] + t;
      assert s[..|s| - 1] == ['0'] + t[..|t| - 1];
      LeadingZeroValue(t[..|t| - 1]);
    }
  }

  lemma {:induction false} LeadingZerosValue(m: nat, t: string)
    requires AllDigits(t)
    ensures AllDigits(Zeros(m) + t) && DecimalValue(Zeros(m) + t) == DecimalValue(t)
  {
    if m > 0 {
      var u := Zeros(m - 1) + t;
      LeadingZerosValue(m - 1, t);
      LeadingZeroValue(u);
      assert Zeros(m) == ['0'] + Zeros(m - 1);
      assert Zeros(m) + t == ['0'] + u;
    } else {
      assert Zeros(m) + t == t;
    }
  }

  /** Python's `f"{k:03}"`: the decimal digits of k, zero-padded to a minimum width of 3. */
  function Pad3(k: nat): (r: string)
    ensures AllDigits(r)
  {
    var s := NatToString(k);
    if |s| >= 3 then s else Zeros(3 - |s|) + s
  }

  /** Padding never changes the number: the digits `Pad3` writes read back as k. */
  lemma Pad3Value(k: nat)
    ensures DecimalValue(Pad3(k)) == k
  {
    var s := NatToString(k);
    NatToStringValue(k);
    if |s| < 3 {
      LeadingZerosValue(3 - |s|, s);
    }
  }

  /** Indices below 1000 take exactly three digits; from 1000 on, all their digits and no padding. */
  lemma Pad3Width(k: nat)
    ensures k < 1000 ==> |Pad3(k)| == 3
    ensures k >= 1000 ==> Pad3(k) == NatToString(k) && |Pad3(k)| > 3
  {
    assert Pow10(3) == 1000;
    NatToStringLength(k, 3);
  }

  lemma Pad3Injective(j: nat, k: nat)
    ensures Pad3(j) == Pad3(k) ==> j == k
  {
    Pad3Value(j);
    Pad3Value(k);
  }

  /** The candidate name `f"{base_name}.{index:03}"`. */
  function Suffixed(base: string, k: nat): string
  {
    base + "." + Pad3(k)
  }

  lemma SuffixedInjective(base: string, j: nat, k: nat)
    ensures Suffixed(base, j) == Suffixed(base, k) ==> j == k
  {
    if Suffixed(base, j) == Suffixed(base, k) {
      assert Suffixed(base, j)[|base| + 1..] == Pad3(j);
      assert Suffixed(base, k)[|base| + 1..] == Pad3(k);
      Pad3Injective(j, k);
    }
  }

  /**
   * What `get_unique_name` promises: the name is free; it is the base itself when the
   * base is free, and otherwise the base with the smallest suffix ".NNN" (NNN >= 1)
   * that is free.
   */
  ghost predicate IsUniqueName(base: string, existing: set<string>, name: string)
  {
    && name !in existing
    && (base !in existing ==> name == base)
    && (base in existing ==>
          exists k :: k >= 1 && name == Suffixed(base, k) &&
            forall j :: 1 <= j < k ==> Suffixed(base, j) in existing)
  }

  /** `get_unique_name`: probe ".001", ".002", ... until a free name turns up. */
  method UniqueName(base: string, existing: set<string>) returns (name: string)
    ensures IsUniqueName(base, existing, name)
  {
    if base !in existing {
      return base;
    }
    var index := 1;
    // the candidates already probed; each is in `existing`, so the loop runs out of them
    ghost var probed: set<string> := {};
    while Suffixed(base, index) in existing
      invariant index >= 1
      invariant probed <= existing
      invariant forall j :: 1 <= j < index ==> Suffixed(base, j) in existing
      invariant forall s :: s in probed ==> exists j :: 1 <= j < index && s == Suffixed(base, j)
      decreases existing - probed
    {
      forall j | 1 <= j < index
        ensures Suffixed(base, j) != Suffixed(base, index)
      {
        SuffixedInjective(base, j, index);
      }
      probed := probed + {Suffixed(base, index)};
      index := index + 1;
    }
    name := Suffixed(base, index);
  }

  /** The allocator's answer is determined by the base and the existing names. */
  lemma UniqueNameDetermined(base: string, existing: set<string>, a: string, b: string)
    requires IsUniqueName(base, existing, a) && IsUniqueName(base, existing, b)
    ensures a == b
  {
    if base in existing {
      var ka :| ka >= 1 && a == Suffixed(base, ka) &&
        forall j :: 1 <= j < ka ==> Suffixed(base, j) in existing;
      var kb :| kb >= 1 && b == Suffixed(base, kb) &&
        forall j :: 1 <= j < kb ==> Suffixed(base, j) in existing;
      // each index's name is free, so neither can lie below the other
      assert !(ka < kb) && !(kb < ka);
    }
  }

  /** `name` is `base` followed by nothing but dots and digits, as an allocated name is. */
  predicate NamedFrom(name: string, base: string)
  {
    && |base| <= |name| && name[..|base|] == base
    && forall i :: |base| <= i < |name| ==> name[i] == '.' || IsDigit(name[i])
  }

  /** An allocated name is its base, possibly followed by ".NNN". */
  lemma UniqueNameExtendsBase(base: string, existing: set<string>, name: string)
    requires IsUniqueName(base, existing, name)
    ensures NamedFrom(name, base)
  {
    if base in existing {
      var k :| k >= 1 && name == Suffixed(base, k) &&
        forall j :: 1 <= j < k ==> Suffixed(base, j) in existing;
      assert name == base + ("." + Pad3(k));
      forall i | |base| <= i < |name|
        ensures name[i] == '.' || IsDigit(name[i])
      {
        if i > |base| {
          assert name[i] == Pad3(k)[i - |base| - 1];
        }
      }
    }
  }

  lemma Pad3Examples()
    ensures Pad3(1) == "001" && Pad3(2) == "002" && Pad3(1234) == "1234"
  {
    assert NatToString(1234) == NatToString(123) + ['4'];
    assert NatToString(123) == NatToString(12) + ['3'];
    assert NatToString(12) == NatToString(1) + ['2'];
  }

  /** A taken base whose first k - 1 suffixed names are taken, and whose k-th is free, gets the k-th. */
  lemma FirstFreeSuffix(base: string, existing: set<string>, k: nat)
    requires base in existing && k >= 1 && Suffixed(base, k) !in existing
    requires forall j :: 1 <= j < k ==> Suffixed(base, j) in existing
    ensures IsUniqueName(base, existing, Suffixed(base, k))
  {
  }

  /** "Controller.001" is what the allocator gives when only "Controller" is taken. */
  lemma ControllerFirstSuffix()
    ensures IsUniqueName("Controller", {"Controller"}, "Controller.001")
  {
    var c1 := Suffixed("Controller", 1);
    assert Pad3(1) == "001" by { Pad3Examples(); }
    assert c1 == "Controller.001";
    assert c1 != "Controller" by { assert |c1| != |"Controller"|; }
    FirstFreeSuffix("Controller", {"Controller"}, 1);
  }

  /** A name that is taken once gets ".001". */
  lemma FirstCollisionExample(name: string)
    requires IsUniqueName("Controller", {"Controller"}, name)
    ensures name == "Controller.001"
  {
    ControllerFirstSuffix();
    UniqueNameDetermined("Controller", {"Controller"}, name, "Controller.001");
  }

  /** With the base and its ".001" taken and ".002" free, the allocator answers ".002". */
  lemma SecondSuffixFree(base: string, existing: set<string>)
    requires base in existing && Suffixed(base, 1) in existing && Suffixed(base, 2) !in existing
    ensures IsUniqueName(base, existing, Suffixed(base, 2))
  {
    FirstFreeSuffix(base, existing, 2);
  }

  /** "Controller.002" is what the allocator gives when "Controller" and "Controller.001" are taken. */
  lemma ControllerSecondSuffix()
    ensures IsUniqueName("Controller", {"Controller", "Controller.001"}, "Controller.002")
  {
    var taken := {"Controller", "Controller.001"};
    var c1, c2 := Suffixed("Controller", 1), Suffixed("Controller", 2);
    assert Pad3(1) == "001" && Pad3(2) == "002" by { Pad3Examples(); }
    assert c1 == "Controller.001" && c2 == "Controller.002";
    assert c1 in taken;
    assert c2 != "Controller.001" by { assert c2[13] != "Controller.001"[13]; }
    assert c2 != "Controller" by { assert |c2| != |"Controller"|; }
    SecondSuffixFree("Controller", taken);
  }

  /** A name taken with its ".001" gets ".002". */
  lemma SecondCollisionExample(name: string)
    requires IsUniqueName("Controller", {"Controller", "Controller.001"}, name)
    ensures name == "Controller.002"
  {
    ControllerSecondSuffix();
    UniqueNameDetermined("Controller", {"Controller", "Controller.001"}, name, "Controller.002");
  }

  /** Python's `s.replace(pat, with)`: every non-overlapping occurrence of pat, left to right. */
  function Replace(s: string, pat: string, with: string): string
    requires |pat| > 0
    decreases |s|
  {
    if |s| < |pat| then s
    else if s[..|pat|] == pat then with + Replace(s[|pat|..], pat, with)
    else [s[0]] + Replace(s[1..], pat, with)
  }

  /** A prefix none of whose characters can start the pattern passes through unchanged. */
  lemma {:induction false} ReplaceSkips(p: string, t: string, pat: string, with: string)
    requires |pat| > 0
    requires forall i :: 0 <= i < |p| ==> p[i] != pat[0]
    ensures Replace(p + t, pat, with) == p + Replace(t, pat, with)
  {
    if p != [] {
      var s := p + t;
      assert s[0] == p[0];
      ReplaceSkips(p[1..], t, pat, with);
      if |s| < |pat| {
        assert Replace(s, pat, with) == s;
        assert Replace(t, pat, with) == t;
      } else {
        assert Replace(s, pat, with) == [s[0]] + Replace(s[1..], pat, with);
        assert s[..|pat|][0] != pat[0];
        assert s[1..] == p[1..] + t;
        assert [p[0]] + (p[1..] + Replace(t, pat, with)) == p + Replace(t, pat, with);
      }
    } else {
      assert p + t == t;
    }
  }

  lemma ReplaceHit(t: string, pat: string, with: string)
    requires |pat| > 0
    ensures Replace(pat + t, pat, with) == with + Replace(t, pat, with)
  {
    var s := pat + t;
    assert s[..|pat|] == pat;
    assert s[|pat|..] == t;
  }

  /** A string without the pattern's first character is left as it is. */
  lemma ReplaceNoOccurrence(s: string, pat: string, with: string)
    requires |pat| > 0
    requires forall i :: 0 <= i < |s| ==> s[i] != pat[0]
    ensures Replace(s, pat, with) == s
  {
    ReplaceSkips(s, [], pat, with);
    assert s + [] == s;
  }

  /** The base names the generator asks `get_unique_name` for. */
  const CurveBase := "U_Shape"
  const ControllerBase := "Controller"
  const ArmatureBase := "EnergyChainArmature"
  const LinkBase := "EnergyChainLink"

  /** `armature.name.replace("Armature", "Link")`: the prefix of the link objects' names. */
  function LinkPrefix(armature: string): string
  {
    Replace(armature, "Armature", "Link")
  }

  /** `armature.name + f"_Bone{i + 1}"`: the name of bone i (counted from 0). */
  function BoneName(armature: string, i: nat): string
  {
    armature + "_Bone" + NatToString(i + 1)
  }

  /** `new_link_name + f"_{i + 1}"`: the name of link i (counted from 0). */
  function LinkName(prefix: string, i: nat): string
  {
    prefix + "_" + NatToString(i + 1)
  }

  lemma BoneNamesDistinct(armature: string, i: nat, j: nat)
    ensures BoneName(armature, i) == BoneName(armature, j) ==> i == j
  {
    if BoneName(armature, i) == BoneName(armature, j) {
      assert BoneName(armature, i)[|armature| + 5..] == NatToString(i + 1);
      assert BoneName(armature, j)[|armature| + 5..] == NatToString(j + 1);
      NatToStringInjective(i + 1, j + 1);
    }
  }

  lemma LinkNamesDistinct(prefix: string, i: nat, j: nat)
    ensures LinkName(prefix, i) == LinkName(prefix, j) ==> i == j
  {
    if LinkName(prefix, i) == LinkName(prefix, j) {
      assert LinkName(prefix, i)[|prefix| + 1..] == NatToString(i + 1);
      assert LinkName(prefix, j)[|prefix| + 1..] == NatToString(j + 1);
      NatToStringInjective(i + 1, j + 1);
    }
  }

  /** One occurrence of the pattern, between parts that cannot start it, is the only change. */
  lemma ReplaceSingle(p: string, q: string, pat: string, with: string)
    requires |pat| > 0
    requires forall i :: 0 <= i < |p| ==> p[i] != pat[0]
    requires forall i :: 0 <= i < |q| ==> q[i] != pat[0]
    ensures Replace(p + pat + q, pat, with) == p + with + q
  {
    assert p + pat + q == p + (pat + q);
    ReplaceSkips(p, pat + q, pat, with);
    ReplaceHit(q, pat, with);
    ReplaceNoOccurrence(q, pat, with);
    assert p + (with + q) == p + with + q;
  }

  /** Replacing in "EnergyChainArmature" + suffix, for a suffix with no 'A', touches only the base. */
  lemma ReplaceInArmatureName(suffix: string)
    requires forall i :: 0 <= i < |suffix| ==> suffix[i] != 'A'
    ensures LinkPrefix(ArmatureBase + suffix) == LinkBase + suffix
  {
    var p, pat, with := "EnergyChain", "Armature", "Link";
    assert ArmatureBase == p + pat;
    assert LinkBase == p + with;
    assert forall i :: 0 <= i < |p| ==> p[i] != pat[0];
    ReplaceSingle(p, suffix, pat, with);
  }

  /**
   * An armature named from "EnergyChainArmature" has its links named from
   * "EnergyChainLink" with the same ".NNN" suffix, if any.
   */
  lemma LinkPrefixOfNamedArmature(armature: string)
    requires NamedFrom(armature, ArmatureBase)
    ensures LinkPrefix(armature) == LinkBase + armature[|ArmatureBase|..]
  {
    var suffix := armature[|ArmatureBase|..];
    assert armature == ArmatureBase + suffix;
    forall i | 0 <= i < |suffix|
      ensures suffix[i] != 'A'
    {
      assert suffix[i] == armature[|ArmatureBase| + i];
    }
    ReplaceInArmatureName(suffix);
  }

  /** A link name with a ".NNN" suffix appended is no link name: its tail is not all digits. */
  lemma SuffixedLinkNameIsNoLinkName(prefix: string, i: nat, k: nat, m: nat)
    ensures Suffixed(LinkName(prefix, i), k) != LinkName(prefix, m)
  {
    var a := Suffixed(LinkName(prefix, i), k);
    var b := LinkName(prefix, m);
    var idx := |prefix| + 1 + |NatToString(i + 1)|;
    assert a[idx] == '.';
    assert b[|prefix| + 1..] == NatToString(m + 1);
    assert idx < |b| ==> b[idx] == NatToString(m + 1)[idx - |prefix| - 1] && IsDigit(b[idx]);
  }

  /**
   * What Blender calls a link whose requested name `<prefix>_<i+1>` is taken is the name
   * of no other link: either that very name, or one that matches no `<prefix>_<m+1>` at all.
   */
  lemma RenamedLinkName(prefix: string, i: nat, existing: set<string>, name: string)
    requires IsUniqueName(LinkName(prefix, i), existing, name)
    ensures forall m :: m != i ==> name != LinkName(prefix, m)
    ensures name != LinkName(prefix, i) ==> forall m :: name != LinkName(prefix, m)
  {
    if LinkName(prefix, i) in existing {
      var k :| k >= 1 && name == Suffixed(LinkName(prefix, i), k) &&
        forall j :: 1 <= j < k ==> Suffixed(LinkName(prefix, i), j) in existing;
      forall m ensures name != LinkName(prefix, m) {
        SuffixedLinkNameIsNoLinkName(prefix, i, k, m);
      }
    } else {
      forall m | m != i ensures name != LinkName(prefix, m) {
        LinkNamesDistinct(prefix, i, m);
      }
    }
  }

  /** The name of every link of such an armature starts "EnergyChainL". */
  lemma LinkNameLetters(armature: string, i: nat)
    requires NamedFrom(armature, ArmatureBase)
    ensures var ln := LinkName(LinkPrefix(armature), i); |ln| > 11 && ln[0] == 'E' && ln[11] == 'L'
  {
    LinkPrefixOfNamedArmature(armature);
    var ln := LinkName(LinkPrefix(armature), i);
    assert ln == LinkBase + (armature[|ArmatureBase|..] + "_" + NatToString(i + 1));
    assert ln[..|LinkBase|] == LinkBase;
  }

  /**
   * Names made from the curve's, the controller's and the armature's bases are never the
   * name of a link of that armature: link names start "EnergyChainL", the armature's
   * "EnergyChainA", the curve's "U" and the controller's "C".
   */
  lemma GeneratedNamesAreNoLinkNames(curve: string, controller: string, armature: string, i: nat)
    requires NamedFrom(curve, CurveBase) && NamedFrom(controller, ControllerBase)
    requires NamedFrom(armature, ArmatureBase)
    ensures curve != LinkName(LinkPrefix(armature), i)
    ensures controller != LinkName(LinkPrefix(armature), i)
    ensures armature != LinkName(LinkPrefix(armature), i)
  {
    LinkNameLetters(armature, i);
    assert curve[0] == curve[..|CurveBase|][0];
    assert controller[0] == controller[..|ControllerBase|][0];
    assert armature[11] == armature[..|ArmatureBase|][11];
  }
}
