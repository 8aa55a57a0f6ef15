/** The strings the module builds: upper-cased service names, role and
    role-config-group names, and the comma-separated repository list. */
module Names {

  /** Python's `str.upper()` on one character, for the ASCII letters
      that class names are written in. */
  function UpperChar(c: char): char {
    if 'a' <= c <= 'z' then (c as int - 32) as char else c
  }

  function Upper(s: string): string {
    seq(|s|, i requires 0 <= i < |s| => UpperChar(s[i]))
  }

  predicate IsDigit(c: char) {
    '0' <= c <= '9'
  }

  function DigitChar(d: nat): char
    requires d < 10
  {
    ('0' as int + d) as char
  }

  /** `str(n)` / `'{}'.format(n)` for a natural number. */
  function Digits(n: nat): string
    decreases n
  {
    if n < 10 then [DigitChar(n)] else Digits(n / 10) + [DigitChar(n % 10)]
  }

  lemma {:induction false} DigitsShape(n: nat)
    ensures |Digits(n)| >= 1
    ensures n >= 10 ==> |Digits(n)| >= 2
    ensures forall k :: 0 <= k < |Digits(n)| ==> IsDigit(Digits(n)[k])
    decreases n
  {
    if n >= 10 {
      DigitsShape(n / 10);
    }
  }

  /** Different numbers print differently, so the ordinal of a role name
      identifies the role. */
  lemma {:induction false} DigitsInjective(m: nat, n: nat)
    requires Digits(m) == Digits(n)
    ensures m == n
    decreases m + n
  {
    DigitsShape(m);
    DigitsShape(n);
    if m >= 10 && n >= 10 {
      var dm, dn := Digits(m), Digits(n);
      assert dm[|dm| - 1] == DigitChar(m % 10);
      assert dn[|dn| - 1] == DigitChar(n % 10);
      assert Digits(m / 10) == dm[..|dm| - 1] == dn[..|dn| - 1] == Digits(n / 10);
      DigitsInjective(m / 10, n / 10);
    }
  }

  /** `'{}-{}-{}'.format(service, group, ordinal)`: the name of one role
      instance. */
  function RoleName(service: string, group: string, ordinal: nat): string {
    service + "-" + group + "-" + Digits(ordinal)
  }

  /** A role name ends with its ordinal's digits after a dash. */
  lemma RoleNameSuffix(service: string, group: string, ordinal: nat)
    ensures var n, d := RoleName(service, group, ordinal), Digits(ordinal);
      |n| > |d| && n[|n| - |d| - 1] == '-' && n[|n| - |d|..] == d
  {
  }

  /** `'{}-{}-BASE'.format(service, group)`: the base role-config group. */
  function GroupName(service: string, group: string): string {
    service + "-" + group + "-BASE"
  }

  /** `'mgmt-{}-BASE'.format(group)`: a management role-config group, which
      is the base group of `group` in a service named `mgmt`. */
  function MgmtGroupName(group: string): (n: string)
    ensures n == GroupName("mgmt", group) && IsMgmtGroup(n)
  {
    "mgmt-" + group + "-BASE"
  }

  /** A name in the management service's group namespace. */
  predicate IsMgmtGroup(g: string) {
    |g| >= 5 && g[..5] == "mgmt-"
  }

  /** The group names of a service whose name starts with a capital are
      outside the management namespace. */
  lemma ServiceGroupNotMgmt(service: string, group: string)
    requires |service| > 0 && 'A' <= service[0] <= 'Z'
    ensures !IsMgmtGroup(GroupName(service, group))
  {
    assert GroupName(service, group)[0] == (service + "-")[0] == service[0];
  }

  /** `'{}-1'.format(group)`: the one management role of a group. The name
      is the role type followed by two characters. */
  function MgmtRoleName(group: string): (n: string)
    ensures |n| == |group| + 2 && n[..|group|] == group
  {
    group + "-1"
  }

  /** Distinct role types give distinct management role names. */
  lemma MgmtRoleNameInjective(a: string, b: string)
    requires MgmtRoleName(a) == MgmtRoleName(b)
    ensures a == b
  {
    assert |a| == |b|;
    assert a == MgmtRoleName(a)[..|a|];
    assert b == MgmtRoleName(b)[..|b|];
  }

  /** A role name determines its ordinal, whatever the service and group:
      the digits after the last dash. */
  lemma RoleNameOrdinal(s1: string, g1: string, i: nat, s2: string, g2: string, j: nat)
    requires RoleName(s1, g1, i) == RoleName(s2, g2, j)
    ensures i == j
  {
    var w := RoleName(s1, g1, i);
    var a, b := Digits(i), Digits(j);
    DigitsShape(i);
    DigitsShape(j);
    RoleNameSuffix(s1, g1, i);
    RoleNameSuffix(s2, g2, j);
    // The character before the shorter digit run is a dash in one reading
    // and a digit in the other, so the runs have the same length.
    assert |a| == |b|;
    assert a == w[|w| - |a|..] == b;
    DigitsInjective(i, j);
  }

  /** Python's `s.split(',')`: the entries of a comma-separated list. The
      empty string has one, empty, entry. */
  function Split(s: string): (parts: seq<string>)
    ensures |parts| >= 1
    ensures forall k :: 0 <= k < |parts| ==> ',' !in parts[k]
  {
    if s == [] then [[]]
    else if s[0] == ',' then [[]] + Split(s[1..])
    else var rest := Split(s[1..]); [[s[0]] + rest[0]] + rest[1..]
  }

  /** `','.join([a, b])`. */
  function JoinComma(a: string, b: string): string {
    a + "," + b
  }

  /** Python's `','.join(parts)`. */
  function JoinAll(parts: seq<string>): string
    decreases |parts|
  {
    if parts == [] then []
    else if |parts| == 1 then parts[0]
    else parts[0] + "," + JoinAll(parts[1..])
  }

  /** Splitting loses nothing: joining the entries again gives the string
      back. */
  lemma {:induction false} SplitRoundTrip(s: string)
    ensures JoinAll(Split(s)) == s
  {
    if s != [] {
      SplitRoundTrip(s[1..]);
      var rest := Split(s[1..]);
      if s[0] == ',' {
        assert Split(s) == [[]] + rest;
        assert s == [','] + s[1..];
      } else {
        assert Split(s) == [[s[0]] + rest[0]] + rest[1..];
        if |rest| == 1 {
          assert s == [s[0]] + s[1..];
        } else {
          assert JoinAll(rest) == rest[0] + "," + JoinAll(rest[1..]);
          assert s == [s[0]] + s[1..];
        }
      }
    }
  }

  /** Joining two lists with a comma keeps every entry of the first, in
      order, and adds those of the second after them. */
  lemma {:induction false} SplitJoin(a: string, b: string)
    ensures Split(JoinComma(a, b)) == Split(a) + Split(b)
  {
    if a == [] {
      assert JoinComma(a, b) == [','] + b;
      assert JoinComma(a, b)[1..] == b;
    } else {
      assert JoinComma(a, b)[1..] == JoinComma(a[1..], b);
      SplitJoin(a[1..], b);
    }
  }
}
