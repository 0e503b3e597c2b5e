// Names built by the plugins: instance ids and environment variables.
module Naming {

  // ---- fmt.Sprintf("%d", n) ----

  const DIGITS := "0123456789"

  function Decimal(n: nat): string {
    if n < 10 then [DIGITS[n]] else Decimal(n / 10) + [DIGITS[n % 10]]
  }

  predicate IsDigit(c: char) {
    '0' <= c <= '9'
  }

  function ParseDecimal(s: string): int {
    if s == "" then 0 else 10 * ParseDecimal(s[..|s| - 1]) + (s[|s| - 1] as int - '0' as int)
  }

  lemma DigitsValue(d: nat)
    requires d < 10
    ensures IsDigit(DIGITS[d]) && DIGITS[d] as int - '0' as int == d
  {
    assert d == 0 || d == 1 || d == 2 || d == 3 || d == 4 || d == 5 || d == 6 || d == 7 || d == 8 || d == 9;
  }

  lemma {:induction false} DecimalRoundTrip(n: nat)
    ensures ParseDecimal(Decimal(n)) == n
    ensures Decimal(n) != "" && forall c | c in Decimal(n) :: IsDigit(c)
    ensures Decimal(n)[0] == '0' <==> n == 0
  {
    DigitsValue(n % 10);
    if n < 10 {
      DigitsValue(n);
      assert Decimal(n)[..0] == "";
    } else {
      DecimalRoundTrip(n / 10);
      var s := Decimal(n);
      assert s[..|s| - 1] == Decimal(n / 10);
    }
  }

  // ---- "%s_%d" ----

  function BandwidthId(ifname: string, idx: nat): string {
    ifname + "_" + Decimal(idx)
  }

  // The length of s up to its last underscore.
  function LastUnderscore(s: string): (n: nat)
    ensures n <= |s|
  {
    if s == "" || s[|s| - 1] == '_' then |s| else LastUnderscore(s[..|s| - 1])
  }

  function DecodeBandwidthId(s: string): (string, int) {
    var n := LastUnderscore(s);
    (if n == 0 then "" else s[..n - 1], ParseDecimal(s[n..]))
  }

  lemma {:induction false} LastUnderscoreBeforeDigits(head: string, digits: string)
    requires head != "" && head[|head| - 1] == '_' && '_' !in digits
    ensures LastUnderscore(head + digits) == |head|
    decreases |digits|
  {
    if digits == "" {
      assert head + digits == head;
    } else {
      var n := |digits| - 1;
      assert (head + digits)[..|head| + n] == head + digits[..n];
      LastUnderscoreBeforeDigits(head, digits[..n]);
    }
  }

  // An id names one interface and one index, whatever underscores the interface name has.
  lemma BandwidthIdRoundTrip(ifname: string, idx: nat)
    ensures DecodeBandwidthId(BandwidthId(ifname, idx)) == (ifname, idx)
  {
    DecimalRoundTrip(idx);
    var head := ifname + "_";
    LastUnderscoreBeforeDigits(head, Decimal(idx));
    assert BandwidthId(ifname, idx) == head + Decimal(idx);
    assert (head + Decimal(idx))[|head|..] == Decimal(idx);
    assert (head + Decimal(idx))[..|head| - 1] == ifname;
  }

  lemma BandwidthIdsDistinct(ifname: string, idx: nat, ifname': string, idx': nat)
    ensures BandwidthId(ifname, idx) == BandwidthId(ifname', idx') <==> ifname == ifname' && idx == idx'
  {
    BandwidthIdRoundTrip(ifname, idx);
    BandwidthIdRoundTrip(ifname', idx');
  }

  // ---- sanitizeEnv and the variable names of a partition ----

  // ASCII only: other letters are left as they are.
  function EnvChar(c: char): char {
    if c == '.' || c == '-' then '_'
    else if 'a' <= c <= 'z' then (c as int - 32) as char
    else c
  }

  function SanitizeEnv(s: string): (t: string)
    ensures |t| == |s|
    ensures forall c | c in t :: c != '.' && c != '-' && !('a' <= c <= 'z')
  {
    if s == "" then "" else [EnvChar(s[0])] + SanitizeEnv(s[1..])
  }

  function EnvName(domain: string, tag: string, env: string): string {
    SanitizeEnv(domain) + "_PART_" + SanitizeEnv(tag) + "_" + SanitizeEnv(env)
  }

  datatype Variable = Path | DiskId | DiskModel | DiskSerial

  function VariableName(v: Variable): string {
    match v
    case Path => "PATH"
    case DiskId => "DISK_ID"
    case DiskModel => "DISK_MODEL"
    case DiskSerial => "DISK_SERIAL"
  }

  // The four names stay as they are.
  lemma VariableNamesStay(v: Variable)
    ensures SanitizeEnv(VariableName(v)) == VariableName(v)
  {
    var name := VariableName(v);
    forall i: nat | i < |name|
      ensures SanitizeEnv(name)[i] == name[i]
    {
      SanitizeAt(name, i);
      assert name[i] in name;
      UpperKept(v, i);
    }
    assert SanitizeEnv(name) == name;
  }

  // They differ in their last two characters, so none ends another.
  lemma VariablesSuffixFree(v: Variable)
    ensures var s := SanitizeEnv(VariableName(v));
            && |s| >= 2
            && s[|s| - 2..] ==
              match v { case Path => "TH" case DiskId => "ID" case DiskModel => "EL" case DiskSerial => "AL" }
  {
    VariableNamesStay(v);
  }

  lemma UpperKept(v: Variable, i: nat)
    requires i < |VariableName(v)|
    ensures EnvChar(VariableName(v)[i]) == VariableName(v)[i]
  {
    assert i < 11;
  }

  lemma {:induction false} SanitizeAt(s: string, i: nat)
    requires i < |s|
    ensures SanitizeEnv(s)[i] == EnvChar(s[i])
    decreases i
  {
    if i > 0 {
      SanitizeAt(s[1..], i - 1);
    }
  }

  // Character by character: dots and dashes become underscores, a letter its capital, and
  // everything else stays.
  lemma SanitizedAt(s: string, i: nat)
    requires i < |s|
    ensures s[i] == '.' || s[i] == '-' ==> SanitizeEnv(s)[i] == '_'
    ensures 'a' <= s[i] <= 'z' ==> SanitizeEnv(s)[i] as int - 'A' as int == s[i] as int - 'a' as int
    ensures s[i] != '.' && s[i] != '-' && !('a' <= s[i] <= 'z') ==> SanitizeEnv(s)[i] == s[i]
  {
    SanitizeAt(s, i);
  }

  // A name is the sanitised domain, PART, the sanitised label and the name of the variable.
  lemma VariableNamed(domain: string, tag: string, v: Variable)
    ensures EnvName(domain, tag, VariableName(v)) == SanitizeEnv(domain) + "_PART_" + SanitizeEnv(tag) +
      match v {
        case Path => "_PATH"
        case DiskId => "_DISK_ID"
        case DiskModel => "_DISK_MODEL"
        case DiskSerial => "_DISK_SERIAL"
      }
  {
    VariableNamesStay(v);
    InParts(SanitizeEnv(domain) + "_PART_" + SanitizeEnv(tag), "_", VariableName(v));
  }

  lemma InParts(a: string, b: string, c: string)
    ensures a + b + c == a + (b + c)
  {
  }

  lemma SameTail(a: string, s: string, b: string, t: string)
    requires a + s == b + t && |s| >= 2 && |t| >= 2
    ensures s[|s| - 2..] == t[|t| - 2..]
  {
    var n := |a + s|;
    assert (a + s)[n - 2..] == s[|s| - 2..];
    assert (b + t)[n - 2..] == t[|t| - 2..];
  }

  lemma SameVariable(a: string, v1: Variable, b: string, v2: Variable)
    requires a + SanitizeEnv(VariableName(v1)) == b + SanitizeEnv(VariableName(v2))
    ensures v1 == v2
  {
    VariablesSuffixFree(v1);
    VariablesSuffixFree(v2);
    SameTail(a, SanitizeEnv(VariableName(v1)), b, SanitizeEnv(VariableName(v2)));
  }

  lemma CancelEnds(head: string, a: string, b: string, sep: string, tail: string)
    requires head + a + sep + tail == head + b + sep + tail
    ensures a == b
  {
    assert |a| == |b|;
    assert (head + a + sep + tail)[|head|..|head| + |a|] == a;
    assert (head + b + sep + tail)[|head|..|head| + |b|] == b;
  }

  // Two variables of one domain share a name exactly when they are the same variable of
  // labels that sanitise alike.
  lemma EnvNamesEqualIff(domain: string, l1: string, v1: Variable, l2: string, v2: Variable)
    ensures EnvName(domain, l1, VariableName(v1)) == EnvName(domain, l2, VariableName(v2))
       <==> SanitizeEnv(l1) == SanitizeEnv(l2) && v1 == v2
  {
    if EnvName(domain, l1, VariableName(v1)) == EnvName(domain, l2, VariableName(v2)) {
      var head := SanitizeEnv(domain) + "_PART_";
      SameVariable(head + SanitizeEnv(l1) + "_", v1, head + SanitizeEnv(l2) + "_", v2);
      CancelEnds(head, SanitizeEnv(l1), SanitizeEnv(l2), "_", SanitizeEnv(VariableName(v1)));
    }
  }
}
