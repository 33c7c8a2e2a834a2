/**
  Instance naming: every creation request is named after the machine type
  (with underscores normalised to hyphens) and the number of instances
  created so far, `<machine-type>-pool-<n>`.
 */
module Naming {

  /** The machine type with every `_` replaced by `-`, as `str.replace('_', '-')` does. */
  function ReplaceUnderscores(s: string): string
  {
    if s == [] then []
    else [if s[0] == '_' then '-' else s[0]] + ReplaceUnderscores(s[1..])
  }

  /**
    Position by position: the length is kept, every `_` becomes `-`, every
    other character is kept, so no `_` remains.
   */
  lemma {:induction false} ReplaceUnderscoresSpec(s: string)
    ensures |ReplaceUnderscores(s)| == |s|
    ensures '_' !in ReplaceUnderscores(s)
    ensures forall i :: 0 <= i < |s| && s[i] == '_' ==> ReplaceUnderscores(s)[i] == '-'
    ensures forall i :: 0 <= i < |s| && s[i] != '_' ==> ReplaceUnderscores(s)[i] == s[i]
  {
    if s != [] {
      ReplaceUnderscoresSpec(s[1..]);
      var r := ReplaceUnderscores(s);
      assert r[1..] == ReplaceUnderscores(s[1..]);
      forall i | 0 <= i < |s|
        ensures r[i] == (if s[i] == '_' then '-' else s[i])
      {
        if i > 0 {
          assert r[i] == r[1..][i - 1];
        }
      }
    }
  }

  /** Replacing underscores a second time changes nothing. */
  lemma ReplaceUnderscoresIdempotent(s: string)
    ensures ReplaceUnderscores(ReplaceUnderscores(s)) == ReplaceUnderscores(s)
  {
    ReplaceUnderscoresSpec(s);
    ReplaceUnderscoresKeepsPlainNames(ReplaceUnderscores(s));
  }

  /** A machine type without underscores is used in names as it is. */
  lemma ReplaceUnderscoresKeepsPlainNames(s: string)
    requires '_' !in s
    ensures ReplaceUnderscores(s) == s
  {
    ReplaceUnderscoresSpec(s);
  }

  predicate IsDigit(c: char) {
    '0' <= c <= '9'
  }

  function DigitChar(d: nat): (c: char)
    requires d < 10
    ensures IsDigit(c)
    ensures c as int - '0' as int == d
  {
    ['0', '1', '2', '3', '4', '5', '6', '7', '8', '9'][d]
  }

  /** The decimal rendering of `n`, as Python's `str(int)` and f-strings produce it. */
  function NatToString(n: nat): (s: string)
    ensures |s| > 0
    ensures forall i :: 0 <= i < |s| ==> IsDigit(s[i])
    ensures |s| > 1 ==> s[0] != '0'
  {
    if n < 10 then [DigitChar(n)]
    else NatToString(n / 10) + [DigitChar(n % 10)]
  }

  /** Reads a string of decimal digits back as a number; the inverse of `NatToString`. */
  function ParseDecimal(s: string): nat
    requires forall i :: 0 <= i < |s| ==> IsDigit(s[i])
  {
    if s == [] then 0
    else
      assert IsDigit(s[|s| - 1]);
      ParseDecimal(s[..|s| - 1]) * 10 + (s[|s| - 1] as int - '0' as int)
  }

  lemma {:induction false} ParseNatToString(n: nat)
    ensures ParseDecimal(NatToString(n)) == n
  {
    if n >= 10 {
      var s := NatToString(n);
      assert s[..|s| - 1] == NatToString(n / 10);
      ParseNatToString(n / 10);
    }
  }

  /** Distinct numbers have distinct decimal renderings. */
  lemma NatToStringInjective(a: nat, b: nat)
    requires NatToString(a) == NatToString(b)
    ensures a == b
  {
    ParseNatToString(a);
    ParseNatToString(b);
  }

  /**
    The name of the request for the next slot to fill, given the number
    already created. It never carries an underscore, whatever the machine
    type holds, and it ends with the slot number in decimal.
   */
  function InstanceName(machineType: string, created: nat): (name: string)
    ensures '_' !in name
    ensures |name| > |NatToString(created)|
    ensures name[|name| - |NatToString(created)|..] == NatToString(created)
  {
    ReplaceUnderscoresSpec(machineType);
    var digits := NatToString(created);
    var name := ReplaceUnderscores(machineType) + "-pool-" + digits;
    assert name[|name| - |digits|..] == digits;
    name
  }

  /** Two requests get the same name exactly when they fill the same slot. */
  lemma InstanceNameInjective(machineType: string, a: nat, b: nat)
    ensures InstanceName(machineType, a) == InstanceName(machineType, b) <==> a == b
  {
    if InstanceName(machineType, a) == InstanceName(machineType, b) {
      ReplaceUnderscoresSpec(machineType);
      var p := |ReplaceUnderscores(machineType) + "-pool-"|;
      assert NatToString(a) == InstanceName(machineType, a)[p..];
      assert NatToString(b) == InstanceName(machineType, b)[p..];
      NatToStringInjective(a, b);
    }
  }

  /**
    The line reported for a successful creation: the instance name follows a
    fixed opening, and the zone comes right before the closing period.
   */
  function SuccessLine(name: string, zone: string): (line: string)
    ensures |line| == |name| + |zone| + 26
    ensures line[..21] == "Successfully created "
    ensures line[21..21 + |name|] == name
    ensures line[|line| - |zone| - 1..|line| - 1] == zone && line[|line| - 1] == '.'
  {
    var line := "Successfully created " + name + " in " + zone + ".";
    assert line[21..21 + |name|] == name;
    assert line[|line| - |zone| - 1..|line| - 1] == zone;
    line
  }

  /** A success line determines the instance and the zone it reports, among names of one length. */
  lemma SuccessLineInjective(name1: string, zone1: string, name2: string, zone2: string)
    requires |name1| == |name2|
    ensures SuccessLine(name1, zone1) == SuccessLine(name2, zone2) <==> name1 == name2 && zone1 == zone2
  {
    var l1, l2 := SuccessLine(name1, zone1), SuccessLine(name2, zone2);
    if l1 == l2 {
      assert name1 == l1[21..21 + |name1|] == name2;
      assert zone1 == l1[|l1| - |zone1| - 1..|l1| - 1] == zone2;
    }
  }
}
