/** Property identities: the key under which one field of one tracked object
    is logged and subscribed. The source builds it as the string
    "Observable(" + <instance id> + ":" + <field name> + ")"; here the instance
    id is a natural number written in decimal. */
module Identity {

  type PropertyId = string

  const Prefix: string := "Observable("

  predicate IsDigit(c: char) {
    '0' <= c <= '9'
  }

  predicate AllDigits(s: string) {
    forall i :: 0 <= i < |s| ==> IsDigit(s[i])
  }

  function DigitChar(d: nat): (c: char)
    requires d < 10
    ensures IsDigit(c) && c as int - '0' as int == d
  {
    ('0' as int + d) as char
  }

  /** The decimal rendering of an instance id (what a template literal makes of a number). */
  function Decimal(n: nat): (s: string)
    ensures |s| >= 1 && AllDigits(s)
    decreases n
  {
    if n < 10 then [DigitChar(n)] else Decimal(n / 10) + [DigitChar(n % 10)]
  }

  /** Reads a string of digits back as a number: the inverse of Decimal. */
  function DecimalValue(s: string): nat
    requires AllDigits(s)
    decreases |s|
  {
    if s == [] then 0
    else DecimalValue(s[..|s| - 1]) * 10 + (s[|s| - 1] as int - '0' as int)
  }

  lemma {:induction false} DecimalRoundTrip(n: nat)
    ensures DecimalValue(Decimal(n)) == n
    decreases n
  {
    var s := Decimal(n);
    if n < 10 {
      assert s[..|s| - 1] == [];
    } else {
      var d := Decimal(n / 10);
      assert s[..|s| - 1] == d;
      DecimalRoundTrip(n / 10);
    }
  }

  /** getId: the identity of field `key` of the tracked object with instance id `instance`.
      It opens with the marker, closes with ")", and the field name sits between the
      separating ":" and that closing parenthesis, right after the instance id. */
  function PropertyIdOf(instance: nat, key: string): (r: PropertyId)
    ensures |r| == |Prefix| + |Decimal(instance)| + |key| + 2
    ensures r[..|Prefix|] == Prefix && r[|r| - 1] == ')'
    ensures r[|Prefix|..|Prefix| + |Decimal(instance)|] == Decimal(instance)
    ensures r[|r| - 2 - |key|] == ':' && r[|r| - 1 - |key|..|r| - 1] == key
  {
    Prefix + Decimal(instance) + ":" + key + ")"
  }

  /** Identities are equal exactly when both the instance and the field name are:
      different fields of one object get different identities, and the same field
      of two objects with different instance ids does too. */
  lemma PropertyIdInjective(a: nat, k: string, b: nat, j: string)
    ensures PropertyIdOf(a, k) == PropertyIdOf(b, j) <==> a == b && k == j
  {
    if PropertyIdOf(a, k) == PropertyIdOf(b, j) {
      var s := PropertyIdOf(a, k);
      var da, db := Decimal(a), Decimal(b);
      var n := |Prefix|;
      assert s == Prefix + da + ":" + k + ")";
      assert s == Prefix + db + ":" + j + ")";
      assert s[n + |da|] == ':';
      assert s[n + |db|] == ':';
      if |da| != |db| {
        assert false;
      }
      assert da == s[n..n + |da|] == db;
      DecimalRoundTrip(a);
      DecimalRoundTrip(b);
      assert k == s[n + |da| + 1..|s| - 1] == j;
    }
  }
}
