/** Envoy response flags: the bitmask printer and the substring test that reads
    its output. */
module Flags {
  import opened Common

  type Mask = m: nat | m < UINT64

  function Pow2(i: nat): (p: nat)
    ensures p > 0
  {
    if i == 0 then 1 else 2 * Pow2(i - 1)
  }

  /** mask & (1 << i) is not zero: the mask shifted right by i is odd. */
  predicate Bit(mask: nat, i: nat) {
    if i == 0 then mask % 2 == 1 else Bit(mask / 2, i - 1)
  }

  const NAMES: seq<string> := [
    "LH", "UH", "UT", "LR", "UR", "UF", "UC", "UO",
    "NR", "DI", "FI", "RL", "UAEX", "RLSE", "DC", "URX",
    "SI", "IH", "DPE", "UMSDR", "RFCF", "NFCF", "DT", "UPE",
    "NC", "OM"]

  const ERROR_FLAGS: seq<string> := ["UF", "UH", "UC", "UT", "UO", "NR"]

  /** n zeros. */
  function Zeros(n: nat): (s: string)
    ensures |s| == n && forall c | c in s :: c == '0'
  {
    if n == 0 then "" else Zeros(n - 1) + "0"
  }

  /** 1 << i in lower-case hexadecimal, as %x prints it. */
  function HexBit(i: nat): string {
    "0x" + ["1248"[i % 4]] + Zeros(i / 4)
  }

  function FlagName(i: nat): string {
    if i < |NAMES| then NAMES[i] else HexBit(i)
  }

  /** The names of the set bits below n, in order. */
  function Selected(mask: nat, n: nat): seq<string> {
    if n == 0 then []
    else Selected(mask, n - 1) + (if Bit(mask, n - 1) then [FlagName(n - 1)] else [])
  }

  /** strings.Join with a comma. */
  function Join(parts: seq<string>): string {
    if parts == [] then ""
    else if |parts| == 1 then parts[0]
    else parts[0] + "," + Join(parts[1..])
  }

  function FlagString(mask: Mask): string {
    Join(Selected(mask, 64))
  }

  method ResponseFlags(mask: Mask) returns (s: string)
    ensures s == FlagString(mask)
  {
    if mask == 0 {
      NothingSelected(64);
      return "";
    }
    var out: seq<string> := [];
    for i := 0 to |NAMES|
      invariant out == Selected(mask, i)
    {
      if Bit(mask, i) {
        out := out + [NAMES[i]];
      }
    }
    for i := |NAMES| to 64
      invariant out == Selected(mask, i)
    {
      if Bit(mask, i) {
        out := out + [HexBit(i)];
      }
    }
    return Join(out);
  }

  lemma {:induction false} NothingSelected(n: nat)
    ensures Selected(0, n) == []
  {
    if n > 0 { NothingSelected(n - 1); }
  }

  /** p occurs in s at k. */
  predicate OccursAt(s: string, p: string, k: nat) {
    k + |p| <= |s| && s[k..k + |p|] == p
  }

  /** strings.Contains. */
  predicate Contains(s: string, p: string) {
    exists k :: 0 <= k <= |s| && OccursAt(s, p, k)
  }

  predicate AnyContained(s: string, ps: seq<string>) {
    exists i :: 0 <= i < |ps| && Contains(s, ps[i])
  }

  method ContainsErrorFlag(flags: string) returns (found: bool)
    ensures found == AnyContained(flags, ERROR_FLAGS)
  {
    for i := 0 to |ERROR_FLAGS|
      invariant forall j :: 0 <= j < i ==> !Contains(flags, ERROR_FLAGS[j])
    {
      if Contains(flags, ERROR_FLAGS[i]) {
        return true;
      }
    }
    return false;
  }

  // ----- a flag is found in the joined string exactly if it is one of the parts -----

  lemma OccursInPart(u: string, s: string, v: string, p: string, k: nat)
    requires k + |p| <= |s|
    ensures OccursAt(u + s + v, p, |u| + k) <==> OccursAt(s, p, k)
  {
    var t := u + s + v;
    assert t[|u| + k..|u| + k + |p|] == s[k..k + |p|];
  }

  lemma ContainsConcat(a: string, b: string, p: string)
    requires p != [] && ',' !in p
    ensures Contains(a + "," + b, p) <==> Contains(a, p) || Contains(b, p)
  {
    hide OccursAt;
    var s := a + "," + b;
    assert s == [] + a + ("," + b) && s == (a + ",") + b + [];
    if Contains(a, p) {
      var k :| 0 <= k <= |a| && OccursAt(a, p, k);
      OccursFits(a, p, k);
      OccursInPart([], a, "," + b, p, k);
    }
    if Contains(b, p) {
      var k :| 0 <= k <= |b| && OccursAt(b, p, k);
      OccursFits(b, p, k);
      OccursInPart(a + ",", b, [], p, k);
      assert OccursAt(s, p, |a| + 1 + k);
    }
    if Contains(s, p) {
      var k :| 0 <= k <= |s| && OccursAt(s, p, k);
      OccursFits(s, p, k);
      assert s[|a|] == ',';
      if k + |p| <= |a| {
        OccursInPart([], a, "," + b, p, k);
      } else {
        assert k > |a|;
        OccursInPart(a + ",", b, [], p, k - |a| - 1);
      }
    }
  }

  lemma OccursFits(s: string, p: string, k: nat)
    requires OccursAt(s, p, k)
    ensures k + |p| <= |s| && forall i | k <= i < k + |p| :: s[i] in p
  {
    forall i | k <= i < k + |p| ensures s[i] in p {
      assert s[i] == p[i - k];
    }
  }

  lemma {:induction false} ContainsJoin(parts: seq<string>, p: string)
    requires p != [] && ',' !in p
    ensures Contains(Join(parts), p) <==> exists i :: 0 <= i < |parts| && Contains(parts[i], p)
    decreases |parts|
  {
    if |parts| >= 2 {
      ContainsConcat(parts[0], Join(parts[1..]), p);
      ContainsJoin(parts[1..], p);
      if exists i :: 0 <= i < |parts[1..]| && Contains(parts[1..][i], p) {
        var i :| 0 <= i < |parts[1..]| && Contains(parts[1..][i], p);
        assert Contains(parts[i + 1], p);
      }
      forall i | 0 < i < |parts| && Contains(parts[i], p) ensures Contains(parts[1..][i - 1], p) {
      }
    }
  }

  // ----- which names hold an error flag -----

  predicate HasPair(s: string, a: char, b: char) {
    |s| >= 2 && ((s[0] == a && s[1] == b) || HasPair(s[1..], a, b))
  }

  lemma {:induction false} PairIsContained(s: string, a: char, b: char)
    ensures HasPair(s, a, b) <==> Contains(s, [a, b])
  {
    if |s| >= 2 {
      PairIsContained(s[1..], a, b);
      assert OccursAt(s, [a, b], 0) <==> s[0] == a && s[1] == b;
      forall k | 0 <= k <= |s[1..]| && OccursAt(s[1..], [a, b], k) ensures OccursAt(s, [a, b], k + 1) {
      }
      forall k | 0 < k <= |s| && OccursAt(s, [a, b], k) ensures OccursAt(s[1..], [a, b], k - 1) {
      }
    }
  }

  predicate HasErrorPair(s: string) {
    HasPair(s, 'U', 'F') || HasPair(s, 'U', 'H') || HasPair(s, 'U', 'C')
    || HasPair(s, 'U', 'T') || HasPair(s, 'U', 'O') || HasPair(s, 'N', 'R')
  }

  lemma ErrorPairIsContained(s: string)
    ensures HasErrorPair(s) <==> AnyContained(s, ERROR_FLAGS)
  {
    PairIsContained(s, 'U', 'F');
    PairIsContained(s, 'U', 'H');
    PairIsContained(s, 'U', 'C');
    PairIsContained(s, 'U', 'T');
    PairIsContained(s, 'U', 'O');
    PairIsContained(s, 'N', 'R');
    assert ERROR_FLAGS[0] == ['U', 'F'] && ERROR_FLAGS[1] == ['U', 'H'] && ERROR_FLAGS[2] == ['U', 'C'];
    assert ERROR_FLAGS[3] == ['U', 'T'] && ERROR_FLAGS[4] == ['U', 'O'] && ERROR_FLAGS[5] == ['N', 'R'];
  }

  /** UH, UT, UF, UC, UO and NR. */
  predicate ErrorBit(i: nat) {
    i in {1, 2, 5, 6, 7, 8}
  }

  lemma {:induction false} NoUpperCase(s: string)
    requires forall c | c in s :: c != 'U' && c != 'N'
    ensures !HasErrorPair(s)
  {
    if |s| >= 2 {
      assert s[0] in s && forall c | c in s[1..] :: c in s;
      NoUpperCase(s[1..]);
    }
  }

  lemma EarlyNames(i: nat)
    requires i < 9
    ensures HasErrorPair(NAMES[i]) <==> ErrorBit(i)
  {
    assert !HasErrorPair("LH") && HasErrorPair("UH") && HasErrorPair("UT") && !HasErrorPair("LR");
    assert !HasErrorPair("UR") && HasErrorPair("UF") && HasErrorPair("UC") && HasErrorPair("UO");
    assert HasErrorPair("NR");
  }

  lemma MiddleNames(i: nat)
    requires 9 <= i < 15
    ensures !HasErrorPair(NAMES[i])
  {
    assert !HasErrorPair("DI") && !HasErrorPair("FI") && !HasErrorPair("RL") && !HasErrorPair("DC");
    assert !HasErrorPair("UAEX") && !HasErrorPair("RLSE");
  }

  lemma LaterNames(i: nat)
    requires 15 <= i < 20
    ensures !HasErrorPair(NAMES[i])
  {
    assert !HasErrorPair("URX") && !HasErrorPair("SI") && !HasErrorPair("IH");
    assert !HasErrorPair("DPE") && !HasErrorPair("UMSDR");
  }

  lemma LastNames(i: nat)
    requires 20 <= i < |NAMES|
    ensures !HasErrorPair(NAMES[i])
  {
    assert !HasErrorPair("RFCF") && !HasErrorPair("NFCF") && !HasErrorPair("DT");
    assert !HasErrorPair("UPE") && !HasErrorPair("NC") && !HasErrorPair("OM");
  }

  lemma FlagNameHoldsError(i: nat)
    ensures AnyContained(FlagName(i), ERROR_FLAGS) <==> ErrorBit(i)
  {
    ErrorPairIsContained(FlagName(i));
    if i < 9 {
      EarlyNames(i);
    } else if i < 15 {
      MiddleNames(i);
    } else if i < 20 {
      LaterNames(i);
    } else if i < |NAMES| {
      LastNames(i);
    } else {
      NoUpperCase(HexBit(i));
    }
  }

  lemma {:induction false} SelectedAre(mask: nat, n: nat)
    ensures forall s :: s in Selected(mask, n) <==> exists i: nat :: i < n && Bit(mask, i) && s == FlagName(i)
  {
    if n > 0 {
      SelectedAre(mask, n - 1);
    }
  }

  lemma JoinContains(parts: seq<string>)
    ensures AnyContained(Join(parts), ERROR_FLAGS) <==> exists s :: s in parts && AnyContained(s, ERROR_FLAGS)
  {
    forall j | 0 <= j < |ERROR_FLAGS|
      ensures Contains(Join(parts), ERROR_FLAGS[j]) <==>
              exists i :: 0 <= i < |parts| && Contains(parts[i], ERROR_FLAGS[j])
    {
      ContainsJoin(parts, ERROR_FLAGS[j]);
    }
    if exists s :: s in parts && AnyContained(s, ERROR_FLAGS) {
      var s :| s in parts && AnyContained(s, ERROR_FLAGS);
      var j :| 0 <= j < |ERROR_FLAGS| && Contains(s, ERROR_FLAGS[j]);
      var i :| 0 <= i < |parts| && parts[i] == s;
      assert Contains(Join(parts), ERROR_FLAGS[j]);
    }
    if AnyContained(Join(parts), ERROR_FLAGS) {
      var j :| 0 <= j < |ERROR_FLAGS| && Contains(Join(parts), ERROR_FLAGS[j]);
      var i :| 0 <= i < |parts| && Contains(parts[i], ERROR_FLAGS[j]);
      assert parts[i] in parts && AnyContained(parts[i], ERROR_FLAGS);
    }
  }

  /** The substring test on the printed flags sees an error exactly if one of
      the six error bits is set, for every mask. */
  lemma ErrorFlagIff(mask: Mask)
    ensures AnyContained(FlagString(mask), ERROR_FLAGS) <==> exists i: nat :: i < 64 && ErrorBit(i) && Bit(mask, i)
  {
    var parts := Selected(mask, 64);
    JoinContains(parts);
    SelectedAre(mask, 64);
    if exists s :: s in parts && AnyContained(s, ERROR_FLAGS) {
      var s :| s in parts && AnyContained(s, ERROR_FLAGS);
      var i: nat :| i < 64 && Bit(mask, i) && s == FlagName(i);
      FlagNameHoldsError(i);
    }
    if exists i: nat :: i < 64 && ErrorBit(i) && Bit(mask, i) {
      var i: nat :| i < 64 && ErrorBit(i) && Bit(mask, i);
      FlagNameHoldsError(i);
      assert FlagName(i) in parts;
    }
  }

  // ----- the printed flags determine the mask -----

  /** Where a name stands, from its first three letters. */
  function NameIndex(s: string): nat
    requires |s| >= 2
  {
    var a, b, long := s[0], s[1], |s| > 2;
    if a == 'L' then if b == 'H' then 0 else 3
    else if a == 'U' then
      if b == 'H' then 1 else if b == 'T' then 2 else if b == 'R' then (if long then 15 else 4)
      else if b == 'F' then 5 else if b == 'C' then 6 else if b == 'O' then 7
      else if b == 'A' then 12 else if b == 'M' then 19 else 23
    else if a == 'N' then if b == 'R' then 8 else if b == 'F' then 21 else 24
    else if a == 'D' then if b == 'I' then 9 else if b == 'C' then 14 else if b == 'P' then 18 else 22
    else if a == 'F' then 10
    else if a == 'R' then if b == 'F' then 20 else if long then 13 else 11
    else if a == 'S' then 16 else if a == 'I' then 17 else 25
  }

  lemma NamesDiffer(i: nat)
    requires i < |NAMES|
    ensures |NAMES[i]| >= 2 && NameIndex(NAMES[i]) == i
  {
  }

  lemma NamesPlain(i: nat)
    requires i < |NAMES|
    ensures NAMES[i] != [] && NAMES[i][0] != '0' && ',' !in NAMES[i]
  {
  }

  lemma HexBitIs(i: nat)
    ensures HexBit(i) != [] && ',' !in HexBit(i) && HexBit(i)[0] == '0'
  {
  }

  lemma HexBitsDiffer(i: nat, j: nat)
    requires HexBit(i) == HexBit(j)
    ensures i == j
  {
    assert |HexBit(i)| == 3 + i / 4 && |HexBit(j)| == 3 + j / 4;
    assert HexBit(i)[2] == "1248"[i % 4] && HexBit(j)[2] == "1248"[j % 4];
  }

  lemma FlagNamesDiffer(i: nat, j: nat)
    requires FlagName(i) == FlagName(j)
    ensures i == j
  {
    HexBitIs(i);
    HexBitIs(j);
    if i < |NAMES| { NamesDiffer(i); NamesPlain(i); }
    if j < |NAMES| { NamesDiffer(j); NamesPlain(j); }
    if i >= |NAMES| && j >= |NAMES| { HexBitsDiffer(i, j); }
  }

  predicate Parts(parts: seq<string>) {
    forall i :: 0 <= i < |parts| ==> parts[i] != [] && ',' !in parts[i]
  }

  lemma FlagNamePlain(i: nat)
    ensures FlagName(i) != [] && ',' !in FlagName(i)
  {
    HexBitIs(i);
    if i < |NAMES| { NamesPlain(i); }
  }

  lemma {:induction false} SelectedParts(mask: nat, n: nat)
    ensures Parts(Selected(mask, n))
  {
    hide FlagName;
    if n > 0 {
      SelectedParts(mask, n - 1);
      FlagNamePlain(n - 1);
    }
  }

  lemma FirstComma(a: string, x: string, b: string, y: string)
    requires ',' !in a && ',' !in b && a + "," + x == b + "," + y
    ensures a == b && x == y
  {
    var s := a + "," + x;
    assert s == b + "," + y;
    assert s[|a|] == ',' && s[|b|] == ',';
    forall i | 0 <= i < |a| ensures s[i] != ',' {
      assert s[i] == a[i];
    }
    forall i | 0 <= i < |b| ensures s[i] != ',' {
      assert s[i] == b[i];
    }
    assert |a| == |b|;
    assert a == s[..|a|] && b == s[..|b|];
    assert x == s[|a| + 1..] && y == s[|b| + 1..];
  }

  lemma JoinShape(parts: seq<string>)
    requires Parts(parts)
    ensures Join(parts) == [] <==> parts == []
    ensures ',' in Join(parts) <==> |parts| >= 2
  {
    if |parts| >= 2 {
      assert Join(parts)[|parts[0]|] == ',';
    }
  }

  lemma {:induction false} JoinInjective(a: seq<string>, b: seq<string>)
    requires Parts(a) && Parts(b) && Join(a) == Join(b)
    ensures a == b
    decreases |a|
  {
    JoinShape(a);
    JoinShape(b);
    if |a| >= 2 {
      FirstComma(a[0], Join(a[1..]), b[0], Join(b[1..]));
      JoinInjective(a[1..], b[1..]);
      assert a == [a[0]] + a[1..] && b == [b[0]] + b[1..];
    }
  }

  lemma BitSelected(mask: nat, n: nat, i: nat)
    requires i < n
    ensures Bit(mask, i) <==> FlagName(i) in Selected(mask, n)
  {
    SelectedAre(mask, n);
    if FlagName(i) in Selected(mask, n) {
      var j: nat :| j < n && Bit(mask, j) && FlagName(i) == FlagName(j);
      FlagNamesDiffer(i, j);
    }
  }

  lemma {:induction false} BitsDetermine(m1: nat, m2: nat, n: nat)
    requires m1 < Pow2(n) && m2 < Pow2(n)
    requires forall i: nat :: i < n ==> Bit(m1, i) == Bit(m2, i)
    ensures m1 == m2
  {
    if n > 0 {
      assert Bit(m1, 0) == Bit(m2, 0);
      forall i: nat | i < n - 1 ensures Bit(m1 / 2, i) == Bit(m2 / 2, i) {
        assert Bit(m1, i + 1) == Bit(m2, i + 1);
      }
      BitsDetermine(m1 / 2, m2 / 2, n - 1);
    }
  }

  /** No two masks print alike. */
  lemma FlagStringInjective(m1: Mask, m2: Mask)
    requires FlagString(m1) == FlagString(m2)
    ensures m1 == m2
  {
    SelectedParts(m1, 64);
    SelectedParts(m2, 64);
    JoinInjective(Selected(m1, 64), Selected(m2, 64));
    forall i: nat | i < 64 ensures Bit(m1, i) == Bit(m2, i) {
      BitSelected(m1, 64, i);
      BitSelected(m2, 64, i);
    }
    Pow2Is();
    hide Bit, Pow2;
    BitsDetermine(m1, m2, 64);
  }

  lemma {:induction false} Pow2Add(a: nat, b: nat)
    ensures Pow2(a + b) == Pow2(a) * Pow2(b)
    decreases b
  {
    if b > 0 {
      assert Pow2(a + b) == 2 * Pow2(a + (b - 1)) && Pow2(b) == 2 * Pow2(b - 1);
      hide Pow2;
      Pow2Add(a, b - 1);
      Twice(Pow2(a), Pow2(b - 1));
    }
  }

  lemma Twice(x: nat, y: nat)
    ensures 2 * (x * y) == x * (2 * y)
  {
  }

  lemma Pow2Of4()
    ensures Pow2(4) == 16
  {
  }

  lemma Pow2Is()
    ensures Pow2(64) == UINT64
  {
    hide Pow2;
    Pow2Of4();
    Pow2Add(4, 4);
    Pow2Add(8, 8);
    Pow2Add(16, 16);
    Pow2Add(32, 32);
  }

  // ----- what is printed, read back -----

  function CommaAt(s: string): (k: nat)
    ensures k <= |s| && ',' !in s[..k] && (k < |s| ==> s[k] == ',')
  {
    if s == "" || s[0] == ',' then 0
    else
      var k := CommaAt(s[1..]);
      assert s[..k + 1] == [s[0]] + s[1..][..k];
      k + 1
  }

  /** The pieces between the commas. */
  function Split(s: string): seq<string>
    decreases |s|
  {
    var k := CommaAt(s);
    if s == "" then [] else if k == |s| then [s] else [s[..k]] + Split(s[k + 1..])
  }

  lemma SplitFirst(a: string, rest: string)
    requires ',' !in a
    ensures Split(a + "," + rest) == [a] + Split(rest)
    ensures a != "" ==> Split(a) == [a]
  {
    var s := a + "," + rest;
    assert s[|a|] == ',';
    var k := CommaAt(s);
    FirstComma(s[..k], s[k + 1..], a, rest);
  }

  lemma {:induction false} SplitJoin(parts: seq<string>)
    requires Parts(parts)
    ensures Split(Join(parts)) == parts
    decreases |parts|
  {
    hide Split;
    if parts == [] {
      SplitNothing();
    } else if |parts| == 1 {
      SplitFirst(parts[0], "");
    } else {
      SplitJoin(parts[1..]);
      SplitFirst(parts[0], Join(parts[1..]));
      assert parts == [parts[0]] + parts[1..];
    }
  }

  lemma SplitNothing()
    ensures Split("") == []
  {
  }

  /** names are those of the bits, which are the set ones below n, in order. */
  predicate Spells(mask: nat, n: nat, bits: seq<nat>, names: seq<string>) {
    && |names| == |bits| && (forall k | 0 <= k < |bits| :: bits[k] < n && names[k] == FlagName(bits[k]))
    && (forall j, k | 0 <= j < k < |bits| :: bits[j] < bits[k])
    && (forall i | 0 <= i < n :: Bit(mask, i) <==> i in bits)
  }

  lemma {:induction false} SelectedSpells(mask: nat, n: nat) returns (bits: seq<nat>)
    ensures Spells(mask, n, bits, Selected(mask, n))
  {
    hide Bit, FlagName;
    bits := [];
    if n > 0 {
      bits := SelectedSpells(mask, n - 1);
      if Bit(mask, n - 1) {
        bits := bits + [n - 1];
      }
    }
  }

  /** The printed flags are the names of the set bits, in increasing order,
      separated by commas. */
  lemma FlagsSpell(mask: Mask) returns (bits: seq<nat>)
    ensures Spells(mask, 64, bits, Split(FlagString(mask)))
  {
    SelectedParts(mask, 64);
    SplitJoin(Selected(mask, 64));
    bits := SelectedSpells(mask, 64);
  }

  /** The number a string of hexadecimal digits up to 9 denotes. */
  function HexValue(s: string): int {
    if s == "" then 0 else 16 * HexValue(s[..|s| - 1]) + (s[|s| - 1] as int - '0' as int)
  }

  lemma {:induction false} HexZeros(r: nat, n: nat)
    requires r < 4
    ensures HexValue(["1248"[r]] + Zeros(n)) == Pow2(r + 4 * n)
    decreases n
  {
    var s := ["1248"[r]] + Zeros(n);
    if n == 0 {
      assert s[..0] == "" && Pow2(1) == 2 && Pow2(2) == 4 && Pow2(3) == 8;
    } else {
      HexZeros(r, n - 1);
      assert s[..|s| - 1] == ["1248"[r]] + Zeros(n - 1);
      var m := r + 4 * (n - 1);
      assert Pow2(m + 4) == 2 * Pow2(m + 3) && Pow2(m + 3) == 2 * Pow2(m + 2) && Pow2(m + 2) == 2 * Pow2(m + 1);
    }
  }

  /** An unnamed flag is printed as its bit's value in hexadecimal. */
  lemma UnnamedFlag(i: nat)
    requires i >= |NAMES|
    ensures FlagName(i)[..2] == "0x" && HexValue(FlagName(i)[2..]) == Pow2(i)
  {
    hide HexValue, Zeros, Pow2;
    var r, n := i % 4, i / 4;
    HexZeros(r, n);
    HexParts(["1248"[r]], Zeros(n));
  }

  lemma HexParts(d: string, zeros: string)
    ensures ("0x" + d + zeros)[..2] == "0x" && ("0x" + d + zeros)[2..] == d + zeros
  {
  }
}
