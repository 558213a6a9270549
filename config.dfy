/** The engine's configuration as the loader sees it, and the zero-padded
    key names under which torque-curve samples are stored. */
module PTreeConfig {

  /** A parsed configuration section: each key holds the numbers written for it.
      A read succeeds exactly when the key is present. */
  type Config = map<string, seq<real>>

  /** The i-th number written for a key; a list that is too short reads as 0. */
  function Number(v: seq<real>, i: nat): real
  {
    if i < |v| then v[i] else 0.0
  }

  /** An optional scalar read: the key's first number when present, else `dflt`. */
  function ReadOr(cfg: Config, key: string, dflt: real): (r: real)
    ensures key !in cfg ==> r == dflt
  {
    if key in cfg then Number(cfg[key], 0) else dflt
  }

  /** The decimal digit character for d. */
  function Digit(d: nat): (c: char)
    requires d < 10
    ensures '0' <= c <= '9'
    ensures (c == '0') <==> d == 0
  {
    (48 + d) as char
  }

  /** The decimal representation of n, without leading zeros. */
  function Decimal(n: nat): (s: string)
    ensures 1 <= |s|
    ensures n >= 10 ==> |s| >= 2
    ensures n < 10 ==> |s| == 1
  {
    if n < 10 then [Digit(n)] else Decimal(n / 10) + [Digit(n % 10)]
  }

  /** n copies of c. */
  function Repeat(c: char, n: nat): (r: string)
    ensures |r| == n
    ensures forall i :: 0 <= i < n ==> r[i] == c
  {
    if n == 0 then [] else [c] + Repeat(c, n - 1)
  }

  /** Right-justifies s in a field of the given width, filling on the left. */
  function PadLeft(s: string, width: nat, fill: char): string
  {
    if |s| < width then Repeat(fill, width - |s|) + s else s
  }

  /** The padded string is at least `width` long, ends with s, and starts with
      the fill character exactly when s was shorter than the field. */
  lemma PadLeftShape(s: string, width: nat, fill: char)
    ensures var r := PadLeft(s, width, fill);
      |r| == (if |s| < width then width else |s|) &&
      r[|r| - |s|..] == s &&
      (|s| < width ==> r[0] == fill)
  {
  }

  const TorqueKeyPrefix := "torque-curve-"

  /** The key of the n-th torque-curve sample: the prefix followed by n in
      decimal, zero-filled to width 2. */
  function TorqueKey(n: nat): string
  {
    TorqueKeyPrefix + PadLeft(Decimal(n), 2, '0')
  }

  lemma {:induction false} DecimalLeadingDigit(n: nat)
    requires n >= 1
    ensures Decimal(n)[0] != '0'
  {
    if n >= 10 {
      DecimalLeadingDigit(n / 10);
      assert Decimal(n)[0] == Decimal(n / 10)[0];
    }
  }

  /** Different numbers have different decimal representations. */
  lemma {:induction false} DecimalInjective(a: nat, b: nat)
    requires Decimal(a) == Decimal(b)
    ensures a == b
    decreases a + b
  {
    if a >= 10 && b >= 10 {
      var da, db := Decimal(a), Decimal(b);
      assert da[..|da| - 1] == Decimal(a / 10);
      assert db[..|db| - 1] == Decimal(b / 10);
      assert da[|da| - 1] == Digit(a % 10) && db[|db| - 1] == Digit(b % 10);
      DecimalInjective(a / 10, b / 10);
    } else if a < 10 && b < 10 {
      assert Decimal(a)[0] == Digit(a) && Decimal(b)[0] == Digit(b);
    }
  }

  /** Different sample numbers give different keys, so the loader never reads
      the same key twice. */
  lemma TorqueKeyInjective(a: nat, b: nat)
    requires TorqueKey(a) == TorqueKey(b)
    ensures a == b
  {
    var p := TorqueKeyPrefix;
    var da, db := Decimal(a), Decimal(b);
    var sa, sb := PadLeft(da, 2, '0'), PadLeft(db, 2, '0');
    PadLeftShape(da, 2, '0');
    PadLeftShape(db, 2, '0');
    assert sa == TorqueKey(a)[|p|..] && sb == TorqueKey(b)[|p|..];
    if a < 10 && b < 10 {
      assert da == sa[1..] && db == sb[1..];
      DecimalInjective(a, b);
    } else if a >= 10 && b >= 10 {
      DecimalInjective(a, b);
    } else if a < 10 {
      // sa starts with the fill character, sb with a non-zero digit
      DecimalLeadingDigit(b);
    } else {
      DecimalLeadingDigit(a);
    }
  }

  /** The keys of samples 0 .. n-1. */
  function KeysBelow(n: nat): set<string>
  {
    if n == 0 then {} else KeysBelow(n - 1) + {TorqueKey(n - 1)}
  }

  lemma {:induction false} KeyNotBelow(m: nat, n: nat)
    requires n <= m
    ensures TorqueKey(m) !in KeysBelow(n)
  {
    if n > 0 {
      KeyNotBelow(m, n - 1);
      if TorqueKey(m) == TorqueKey(n - 1) {
        TorqueKeyInjective(m, n - 1);
      }
    }
  }

  lemma {:induction false} KeysBelowSize(n: nat)
    ensures |KeysBelow(n)| == n
  {
    if n > 0 {
      KeysBelowSize(n - 1);
      KeyNotBelow(n - 1, n - 1);
    }
  }

  lemma SubsetSize<T>(a: set<T>, b: set<T>)
    requires a <= b
    ensures |a| <= |b|
  {
    assert b == a + (b - a);
  }

  /** A configuration holding the keys of samples 0 .. n-1 has at least n keys. */
  lemma KeysBelowBound(cfg: Config, n: nat)
    requires KeysBelow(n) <= cfg.Keys
    ensures n <= |cfg.Keys|
  {
    KeysBelowSize(n);
    SubsetSize(KeysBelow(n), cfg.Keys);
  }
}
