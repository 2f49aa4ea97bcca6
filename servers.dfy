/**
 * The slice of the application store that the main window reads: the list of
 * server records and the URL of the current server, and the helpers that both
 * generations of the icon hook and the title hook share (`servers.find` on the
 * current URL, the sum of integer badges, the any-truthy test, and
 * `Number.prototype.toString(10)` on that sum).
 */
module Servers {
  import opened Wrappers

  /**
   * A server's `badge` as JavaScript sees it: an integer (`Number.isInteger`
   * holds), `null`/`undefined`, or any other value (the string '•', `true`, a
   * non-integral number, ...) of which only the truthiness matters.
   */
  datatype Badge = Absent | Int(n: int) | Other(truthy: bool)

  /** A server record. An absent favicon or title is the empty (falsy) string. */
  datatype Server = Server(url: string, favicon: string, badge: Badge, title: string)

  /** The store snapshot; `currentServerUrl` is `None` when no server is selected. */
  datatype StoreState = StoreState(
    servers: seq<Server>,
    currentServerUrl: Option<string>,
    isTrayIconEnabled: bool)

  /** `!!badge`; an integer badge is truthy exactly when it is nonzero. */
  predicate Truthy(b: Badge)
    ensures b.Int? ==> (Truthy(b) <==> IntegerPart(b) != 0)
  {
    match b
    case Absent => false
    case Int(n) => n != 0
    case Other(t) => t
  }

  /** The predicate of `servers.find(({ url }) => url === currentServerUrl)`. */
  predicate IsCurrent(s: Server, current: Option<string>) {
    current == Some(s.url)
  }

  /** `servers.find` on the current URL, as the index of the record it returns. */
  function FindCurrent(servers: seq<Server>, current: Option<string>): (r: Option<nat>)
    ensures r.Some? ==> r.value < |servers| && IsCurrent(servers[r.value], current)
    ensures r.Some? ==> forall j :: 0 <= j < r.value ==> !IsCurrent(servers[j], current)
    ensures r.None? <==> forall j :: 0 <= j < |servers| ==> !IsCurrent(servers[j], current)
  {
    if servers == [] then None
    else if IsCurrent(servers[0], current) then Some(0)
    else match FindCurrent(servers[1..], current)
      case None => None
      case Some(i) => Some(i + 1)
  }

  /** Index `i` holds the record that `servers.find` returns. */
  ghost predicate IsFirstCurrent(servers: seq<Server>, current: Option<string>, i: int) {
    0 <= i < |servers| && IsCurrent(servers[i], current)
    && forall j :: 0 <= j < i ==> !IsCurrent(servers[j], current)
  }

  lemma FindCurrentIsFirst(servers: seq<Server>, current: Option<string>, i: int)
    requires IsFirstCurrent(servers, current, i)
    ensures FindCurrent(servers, current) == Some(i)
  {
  }

  function IntegerPart(b: Badge): int {
    if b.Int? then b.n else 0
  }

  /**
   * `badges.filter(Number.isInteger).reduce((sum, count) => sum + count, 0)`,
   * folding from the left as `reduce` does.
   */
  function MentionCount(servers: seq<Server>): (r: int)
    // servers without an integer badge add nothing
    ensures (forall i :: 0 <= i < |servers| ==> !servers[i].badge.Int?) ==> r == 0
  {
    if servers == [] then 0
    else MentionCount(servers[..|servers| - 1]) + IntegerPart(servers[|servers| - 1].badge)
  }

  /** `badges.some((badge) => !!badge)`, scanning from the front and stopping at the first truthy badge. */
  predicate AnyTruthy(servers: seq<Server>)
    ensures AnyTruthy(servers) <==> exists i :: 0 <= i < |servers| && Truthy(servers[i].badge)
  {
    servers != [] && (Truthy(servers[0].badge) || AnyTruthy(servers[1..]))
  }

  /** A nonzero sum needs a nonzero, hence truthy, integer badge. */
  lemma {:induction false} NonzeroCountIsTruthy(servers: seq<Server>)
    ensures MentionCount(servers) != 0 ==> AnyTruthy(servers)
    decreases |servers|
  {
    if servers != [] && MentionCount(servers) != 0 {
      var n := |servers| - 1;
      if IntegerPart(servers[n].badge) != 0 {
        assert Truthy(servers[n].badge);
      } else {
        NonzeroCountIsTruthy(servers[..n]);
        var i :| 0 <= i < n && Truthy(servers[..n][i].badge);
        assert servers[i] == servers[..n][i];
      }
    }
  }

  lemma {:induction false} MentionCountAppend(a: seq<Server>, b: seq<Server>)
    ensures MentionCount(a + b) == MentionCount(a) + MentionCount(b)
    decreases |b|
  {
    if b == [] {
      assert a + b == a;
    } else {
      var n := |b| - 1;
      assert (a + b)[..|a + b| - 1] == a + b[..n];
      assert (a + b)[|a + b| - 1] == b[n];
      MentionCountAppend(a, b[..n]);
    }
  }

  /** Taking one record out of the list takes its integer badge out of the sum. */
  lemma MentionCountRemove(b: seq<Server>, k: nat)
    requires k < |b|
    ensures MentionCount(b) == MentionCount(b[..k] + b[k + 1..]) + IntegerPart(b[k].badge)
  {
    var front, back := b[..k], b[k + 1..];
    var upTo := b[..k + 1];
    assert b == upTo + back;
    MentionCountAppend(upTo, back);
    assert upTo[..k] == front;
    MentionCountAppend(front, back);
  }

  /** The sum does not depend on the order of the server list. */
  lemma {:induction false} MentionCountPermutation(a: seq<Server>, b: seq<Server>)
    requires multiset(a) == multiset(b)
    ensures MentionCount(a) == MentionCount(b)
    decreases |a|
  {
    if a != [] {
      var n := |a| - 1;
      assert a == a[..n] + [a[n]];
      assert a[n] in multiset(b);
      var k :| 0 <= k < |b| && b[k] == a[n];
      var rest := b[..k] + b[k + 1..];
      assert b == b[..k] + [b[k]] + b[k + 1..];
      assert multiset(b) == multiset(rest) + multiset{b[k]};
      assert multiset(a) == multiset(a[..n]) + multiset{a[n]};
      assert multiset(a[..n]) == multiset(a) - multiset{a[n]};
      assert multiset(rest) == multiset(b) - multiset{b[k]};
      MentionCountPermutation(a[..n], rest);
      MentionCountRemove(b, k);
    }
  }

  lemma AnyTruthyPermutation(a: seq<Server>, b: seq<Server>)
    requires multiset(a) == multiset(b)
    ensures AnyTruthy(a) <==> AnyTruthy(b)
  {
    if AnyTruthy(a) {
      var i :| 0 <= i < |a| && Truthy(a[i].badge);
      assert a[i] in multiset(b);
    }
    if AnyTruthy(b) {
      var i :| 0 <= i < |b| && Truthy(b[i].badge);
      assert b[i] in multiset(a);
    }
  }

  function DigitChar(d: nat): (c: char)
    requires d < 10
    ensures '0' <= c <= '9'
  {
    ('0' as int + d) as char
  }

  predicate IsDigits(s: string) {
    forall i :: 0 <= i < |s| ==> '0' <= s[i] <= '9'
  }

  /** Decimal digits of a natural number, most significant first. */
  function NatDecimal(n: nat): (s: string)
    ensures |s| > 0 && IsDigits(s)
    ensures n > 0 ==> s[0] != '0'
  {
    if n < 10 then [DigitChar(n)] else NatDecimal(n / 10) + [DigitChar(n % 10)]
  }

  /** `n.toString(10)` for an integer `n`. */
  function Decimal(n: int): (s: string)
    ensures |s| > 0
    ensures s[0] == '-' <==> n < 0
    ensures n >= 0 ==> IsDigits(s)
  {
    if n < 0 then "-" + NatDecimal(-n) else NatDecimal(n)
  }

  /** The value of a string of decimal digits. */
  function ParseNat(s: string): nat
    requires IsDigits(s)
  {
    if s == [] then 0 else ParseNat(s[..|s| - 1]) * 10 + (s[|s| - 1] as int - '0' as int)
  }

  /** The inverse of `Decimal`: `None` for a string that no integer prints as. */
  function ParseDecimal(s: string): Option<int> {
    if |s| > 1 && s[0] == '-' && IsDigits(s[1..]) && s[1] != '0' then Some(0 - ParseNat(s[1..]) as int)
    else if |s| > 0 && IsDigits(s) && (s[0] != '0' || |s| == 1) then Some(ParseNat(s))
    else None
  }

  lemma {:induction false} NatDecimalRoundTrip(n: nat)
    ensures ParseNat(NatDecimal(n)) == n
  {
    if n >= 10 {
      var s := NatDecimal(n);
      assert s[..|s| - 1] == NatDecimal(n / 10);
      NatDecimalRoundTrip(n / 10);
    }
  }

  /** Printing an integer in base 10 loses nothing: distinct counts give distinct badge texts. */
  lemma DecimalRoundTrip(n: int)
    ensures ParseDecimal(Decimal(n)) == Some(n)
  {
    var m: nat := if n < 0 then -n else n;
    var digits := NatDecimal(m);
    NatDecimalRoundTrip(m);
    if n < 0 {
      var s := "-" + digits;
      assert s[1..] == digits;
      assert s[1] == digits[0] != '0';
      assert ParseDecimal(s) == Some(0 - ParseNat(digits) as int);
    } else if n == 0 {
      assert digits == "0";
    } else {
      assert digits[0] != '0';
    }
  }

  /** A count from 0 to 9 prints as its single digit. */
  lemma SmallDecimal(n: int)
    requires 0 <= n <= 9
    ensures Decimal(n) == [DigitChar(n)]
  {
  }
}
