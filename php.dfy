/**
 * The slice of PHP's runtime the client relies on: the values that
 * json_decode($json, true) produces, PHP's ordered arrays, truthiness and
 * the loose `== null` test, element assignment `$a[$k] = $v`, and
 * array_intersect_key.
 */
module Php {

  datatype Option<T> = None | Some(value: T)

  /** An array key. PHP arrays are keyed by integers or by strings. */
  datatype Key = IntKey(n: int) | StrKey(s: string)

  /**
   * A PHP value as json_decode($json, true) returns it: JSON objects and
   * JSON lists both become arrays (a list is keyed 0, 1, ...). Numbers
   * are kept as integers. An `Arr` does not by itself forbid a key from
   * occurring twice, as no PHP array can; contracts that need distinct
   * keys say so with `Distinct(Keys(..))`.
   */
  datatype Value =
    | Null
    | Bool(b: bool)
    | Int(i: int)
    | Str(s: string)
    | Arr(entries: seq<(Key, Value)>)

  /** The contents of a PHP array, in insertion order. */
  type Entries = seq<(Key, Value)>

  /** The value of `(bool) $v`. */
  predicate Truthy(v: Value)
  {
    match v
    case Null => false
    case Bool(b) => b
    case Int(i) => i != 0
    case Str(s) => s != "" && s != "0"
    case Arr(entries) => entries != []
  }

  /**
   * The value of `$v == null`. PHP compares null with a string as the
   * string "" and with anything else by converting both sides to bool.
   */
  predicate LooselyNull(v: Value)
  {
    if v.Str? then v.s == "" else !Truthy(v)
  }

  /** Loose null-ness is falsiness, except that the string "0" is not `== null`. */
  lemma LooselyNullIsFalsyButNotZeroString(v: Value)
    ensures LooselyNull(v) <==> !Truthy(v) && v != Str("0")
    ensures LooselyNull(v) <==> v in {Null, Bool(false), Int(0), Str(""), Arr([])}
  {
  }

  /** The keys of an array, in order. */
  function Keys(a: Entries): (ks: seq<Key>)
  {
    seq(|a|, i requires 0 <= i < |a| => a[i].0)
  }

  /** The values of an array, in order: what `foreach ($a as $item)` visits. */
  function Values(a: Entries): (vs: seq<Value>)
    ensures |vs| == |a|
    ensures forall i :: 0 <= i < |a| ==> vs[i] == a[i].1
  {
    if a == [] then [] else [a[0].1] + Values(a[1..])
  }

  /** No key occurs twice, as in every PHP array. */
  predicate Distinct(ks: seq<Key>)
  {
    forall i, j :: 0 <= i < j < |ks| ==> ks[i] != ks[j]
  }

  /** `$a[$k]` when array_key_exists($k, $a), None otherwise. */
  function Lookup(a: Entries, k: Key): (r: Option<Value>)
    ensures r.Some? <==> k in Keys(a)
  {
    if a == [] then None
    else
      assert Keys(a) == [a[0].0] + Keys(a[1..]);
      if a[0].0 == k then Some(a[0].1) else Lookup(a[1..], k)
  }

  /** Lookup and Keys on an array whose first entry is `x`. */
  lemma ConsFacts(x: (Key, Value), s: Entries)
    ensures forall k :: Lookup([x] + s, k) == if x.0 == k then Some(x.1) else Lookup(s, k)
    ensures Keys([x] + s) == [x.0] + Keys(s)
  {
  }

  /**
   * `$a[$k] = $v`: an existing key keeps its position and takes the new
   * value; a new key is appended at the end.
   */
  function Assign(a: Entries, k: Key, v: Value): (r: Entries)
    ensures Lookup(r, k) == Some(v)
    ensures forall k' :: k' != k ==> Lookup(r, k') == Lookup(a, k')
    ensures Keys(r) == if k in Keys(a) then Keys(a) else Keys(a) + [k]
  {
    if a == [] then
      ConsFacts((k, v), []);
      [(k, v)]
    else
      var head, tail := a[0], a[1..];
      assert a == [head] + tail;
      ConsFacts(head, tail);
      if head.0 == k then
        ConsFacts((k, v), tail);
        [(k, v)] + tail
      else
        var rest := Assign(tail, k, v);
        ConsFacts(head, rest);
        [head] + rest
  }

  /** Assigning a new key appends the entry at the end. */
  lemma {:induction false} AssignNewKeyAppends(a: Entries, k: Key, v: Value)
    requires k !in Keys(a)
    ensures Assign(a, k, v) == a + [(k, v)]
  {
    if a != [] {
      var head, tail := a[0], a[1..];
      assert a == [head] + tail;
      ConsFacts(head, tail);
      AssignNewKeyAppends(tail, k, v);
      assert [head] + (tail + [(k, v)]) == a + [(k, v)];
    }
  }

  /**
   * array_intersect_key($a, array_flip($keep)): the entries of `a` whose
   * key is in `keep`, in their original order and with their values.
   */
  function IntersectKeys(a: Entries, keep: set<Key>): (r: Entries)
    ensures forall k :: Lookup(r, k) == if k in keep then Lookup(a, k) else None
    ensures forall i :: 0 <= i < |r| ==> r[i].0 in keep && r[i] in a
    ensures |r| <= |a|
    ensures (forall k :: k in keep ==> k !in Keys(a)) ==> r == []
  {
    if a == [] then []
    else
      var rest := IntersectKeys(a[1..], keep);
      if a[0].0 in keep then [a[0]] + rest else rest
  }

  /** `r` is `a` with some entries left out and the rest in their order in `a`. */
  predicate SubsequenceOf(r: Entries, a: Entries)
    decreases |a|
  {
    if r == [] then true
    else if a == [] then false
    else (r[0] == a[0] && SubsequenceOf(r[1..], a[1..])) || SubsequenceOf(r, a[1..])
  }

  /** array_intersect_key keeps the surviving entries in the order they have in `a`. */
  lemma {:induction false} IntersectKeysKeepsOrder(a: Entries, keep: set<Key>)
    ensures SubsequenceOf(IntersectKeys(a, keep), a)
  {
    if a != [] {
      var r, rest := IntersectKeys(a, keep), IntersectKeys(a[1..], keep);
      IntersectKeysKeepsOrder(a[1..], keep);
      if a[0].0 in keep {
        assert r[0] == a[0] && r[1..] == rest;
      }
    }
  }

  /** Keys are distinct after a first key exactly when it does not recur and the rest are distinct. */
  lemma DistinctCons(k: Key, ks: seq<Key>)
    ensures Distinct([k] + ks) <==> k !in ks && Distinct(ks)
  {
    var all := [k] + ks;
    if k !in ks && Distinct(ks) {
      forall i, j | 0 <= i < j < |all|
        ensures all[i] != all[j]
      {
        if i == 0 {
          assert all[j] == ks[j - 1];
        } else {
          assert all[i] == ks[i - 1] && all[j] == ks[j - 1];
        }
      }
    }
    if Distinct(all) {
      forall i, j | 0 <= i < j < |ks|
        ensures ks[i] != ks[j]
      {
        assert all[i + 1] == ks[i] && all[j + 1] == ks[j];
      }
      forall j | 0 <= j < |ks|
        ensures ks[j] != k
      {
        assert all[0] == k && all[j + 1] == ks[j];
      }
    }
  }

  /** Filtering an array whose keys are distinct leaves the keys distinct. */
  lemma {:induction false} IntersectKeysDistinct(a: Entries, keep: set<Key>)
    requires Distinct(Keys(a))
    ensures Distinct(Keys(IntersectKeys(a, keep)))
  {
    if a != [] {
      var r, rest := IntersectKeys(a, keep), IntersectKeys(a[1..], keep);
      var k := a[0].0;
      assert Keys(a) == [k] + Keys(a[1..]);
      DistinctCons(k, Keys(a[1..]));
      IntersectKeysDistinct(a[1..], keep);
      if k in keep {
        assert Lookup(rest, k) == None;
        assert Keys(r) == [k] + Keys(rest);
        DistinctCons(k, Keys(rest));
      }
    }
  }

  /** The range of a PHP integer on a 64-bit platform. */
  const PHP_INT_MIN: int := -0x8000_0000_0000_0000
  const PHP_INT_MAX: int := 0x7fff_ffff_ffff_ffff

  predicate IsDigit(c: char)
  {
    '0' <= c <= '9'
  }

  predicate AllDigits(s: string)
  {
    forall i :: 0 <= i < |s| ==> IsDigit(s[i])
  }

  /** The number a string of decimal digits denotes. */
  function DigitsValue(s: string): nat
    requires AllDigits(s)
  {
    if s == [] then 0
    else DigitsValue(s[..|s| - 1]) * 10 + (s[|s| - 1] as int - '0' as int)
  }

  /** The decimal digits of `n`, without leading zeros ("0" for zero). */
  function Digits(n: nat): (s: string)
    ensures |s| > 0 && AllDigits(s)
  {
    var last := [('0' as int + n % 10) as char];
    if n < 10 then last else Digits(n / 10) + last
  }

  /** The decimal form of an integer, as `(string) $n` writes it. */
  function Decimal(n: int): string
  {
    if n < 0 then "-" + Digits(-n) else Digits(n)
  }

  /**
   * A string PHP turns into an integer key: an optional minus sign and
   * decimal digits with no leading zero, "0" itself but not "-0".
   */
  predicate IsIntegerString(s: string)
  {
    if |s| > 0 && s[0] == '-' then
      |s| > 1 && AllDigits(s[1..]) && s[1] != '0'
    else
      |s| > 0 && AllDigits(s) && (s[0] != '0' || |s| == 1)
  }

  /** The integer an integer string denotes. */
  function IntegerValue(s: string): int
    requires IsIntegerString(s)
  {
    if s[0] == '-' then -(DigitsValue(s[1..]) as int) else DigitsValue(s)
  }

  /**
   * The key that `$a[$v] = ...` uses for a scalar `$v`: null becomes "",
   * a bool becomes 0 or 1, an integer is used as it is, and a string is
   * used as it is unless it is an integer string within the integer range,
   * which becomes that integer.
   */
  function KeyOf(v: Value): (k: Key)
    requires !v.Arr?
    ensures v.Int? ==> k == IntKey(v.i)
    ensures v.Bool? ==> k == IntKey(if v.b then 1 else 0)
    ensures v.Null? ==> k == StrKey("")
    ensures v.Str? && k.StrKey? ==> k.s == v.s
    ensures v.Str? && k.IntKey? ==> IsIntegerString(v.s) && k.n == IntegerValue(v.s)
  {
    match v
    case Null => StrKey("")
    case Bool(b) => IntKey(if b then 1 else 0)
    case Int(i) => IntKey(i)
    case Str(s) =>
      if IsIntegerString(s) && PHP_INT_MIN <= IntegerValue(s) <= PHP_INT_MAX then IntKey(IntegerValue(s))
      else StrKey(s)
  }

  /** Reading the digits of `n` back gives `n`. */
  lemma {:induction false} DigitsRoundTrip(n: nat)
    ensures DigitsValue(Digits(n)) == n
    ensures Digits(n)[0] != '0' || n == 0
    ensures n == 0 ==> Digits(n) == "0"
  {
    if n >= 10 {
      DigitsRoundTrip(n / 10);
      var s := Digits(n);
      assert s[..|s| - 1] == Digits(n / 10);
    }
  }

  /** The decimal form of an integer is an integer string denoting it. */
  lemma DecimalIsIntegerString(n: int)
    ensures IsIntegerString(Decimal(n)) && IntegerValue(Decimal(n)) == n
  {
    if n < 0 {
      DigitsRoundTrip(-n);
      assert Decimal(n)[1..] == Digits(-n);
    } else {
      DigitsRoundTrip(n);
    }
  }

  /**
   * A string holding an integer's decimal form files under the same key
   * as the integer: `$a["5"]` and `$a[5]` are one element.
   */
  lemma IntegerStringSharesKey(n: int)
    requires PHP_INT_MIN <= n <= PHP_INT_MAX
    ensures KeyOf(Str(Decimal(n))) == KeyOf(Int(n))
  {
    DecimalIsIntegerString(n);
  }

  /** Strings with a leading zero or a negative zero, and non-digits, stay string keys. */
  lemma NonCanonicalStringsStayStrings()
    ensures KeyOf(Str("05")) == StrKey("05")
    ensures KeyOf(Str("-0")) == StrKey("-0")
    ensures KeyOf(Str("1a")) == StrKey("1a")
    ensures KeyOf(Str("")) == KeyOf(Null)
    ensures KeyOf(Str("1")) == KeyOf(Bool(true))
  {
    assert !IsDigit('a');
    assert DigitsValue("1") == 1 by {
      assert "1"[..0] == [];
    }
  }
}
