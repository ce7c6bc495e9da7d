/**
 * The statistics counters of the landing page (script.js): each stat's text is reduced to its
 * digit characters and parsed, and the counter animation starts only for a value that is
 * neither NaN nor zero. Numbers are rendered back to text in decimal.
 */
module Stats {
  import opened Wrappers

  predicate IsDigit(c: char)
  {
    '0' <= c <= '9'
  }

  predicate AllDigits(s: string)
  {
    forall i :: 0 <= i < |s| ==> IsDigit(s[i])
  }

  predicate HasNonZeroDigit(s: string)
  {
    exists i :: 0 <= i < |s| && '1' <= s[i] <= '9'
  }

  /** `text.replace(/\D/g, '')`: the digit characters of text, in their order. */
  function DigitsOnly(text: string): (ds: string)
    ensures AllDigits(ds) && |ds| <= |text|
  {
    if text == [] then []
    else (if IsDigit(text[0]) then [text[0]] else []) + DigitsOnly(text[1..])
  }

  /** Extraction works piecewise: the digits of a + b are those of a followed by those of b. */
  lemma {:induction false} DigitsOnlyConcat(a: string, b: string)
    ensures DigitsOnly(a + b) == DigitsOnly(a) + DigitsOnly(b)
  {
    if a == [] {
      assert a + b == b;
    } else {
      assert (a + b)[0] == a[0] && (a + b)[1..] == a[1..] + b;
      DigitsOnlyConcat(a[1..], b);
    }
  }

  /** A string of digits is kept whole. */
  lemma {:induction false} DigitsOnlyOfDigits(ds: string)
    requires AllDigits(ds)
    ensures DigitsOnly(ds) == ds
  {
    if ds != [] {
      DigitsOnlyOfDigits(ds[1..]);
      assert ds == [ds[0]] + ds[1..];
    }
  }

  /** A string without digits leaves nothing. */
  lemma {:induction false} DigitsOnlyOfNonDigits(s: string)
    requires forall i :: 0 <= i < |s| ==> !IsDigit(s[i])
    ensures DigitsOnly(s) == ""
  {
    if s != [] {
      DigitsOnlyOfNonDigits(s[1..]);
    }
  }

  lemma {:induction false} NonZeroConcat(a: string, b: string)
    ensures HasNonZeroDigit(a + b) <==> HasNonZeroDigit(a) || HasNonZeroDigit(b)
  {
    if HasNonZeroDigit(a + b) {
      var i :| 0 <= i < |a + b| && '1' <= (a + b)[i] <= '9';
      if i >= |a| {
        assert b[i - |a|] == (a + b)[i];
      }
    }
    if HasNonZeroDigit(a) {
      var i :| 0 <= i < |a| && '1' <= a[i] <= '9';
      assert (a + b)[i] == a[i];
    }
    if HasNonZeroDigit(b) {
      var i :| 0 <= i < |b| && '1' <= b[i] <= '9';
      assert (a + b)[|a| + i] == b[i];
    }
  }

  /** Extraction neither adds nor drops a non-zero digit. */
  lemma {:induction false} DigitsOnlyNonZero(s: string)
    ensures HasNonZeroDigit(DigitsOnly(s)) <==> HasNonZeroDigit(s)
  {
    if s != [] {
      DigitsOnlyNonZero(s[1..]);
      var head := if IsDigit(s[0]) then [s[0]] else [];
      assert HasNonZeroDigit(head) <==> HasNonZeroDigit([s[0]]);
      NonZeroConcat(head, DigitsOnly(s[1..]));
      assert s == [s[0]] + s[1..];
      NonZeroConcat([s[0]], s[1..]);
    }
  }

  /** The decimal value of a string of digits. */
  function Value(ds: string): nat
    requires AllDigits(ds)
  {
    if ds == [] then 0 else 10 * Value(ds[..|ds| - 1]) + (ds[|ds| - 1] as int - '0' as int)
  }

  /** A string of digits is worth zero exactly when it has no non-zero digit. */
  lemma {:induction false} ValueZero(ds: string)
    requires AllDigits(ds)
    ensures Value(ds) == 0 <==> !HasNonZeroDigit(ds)
  {
    if ds != [] {
      var init := ds[..|ds| - 1];
      ValueZero(init);
      if HasNonZeroDigit(init) {
        var i :| 0 <= i < |init| && '1' <= init[i] <= '9';
        assert ds[i] == init[i];
      }
      if HasNonZeroDigit(ds) && ds[|ds| - 1] == '0' {
        var i :| 0 <= i < |ds| && '1' <= ds[i] <= '9';
        assert init[i] == ds[i];
      }
    }
  }

  /** `parseInt` of a string of digits: NaN (None) for the empty string, its value otherwise. */
  function ParseDigits(ds: string): Option<nat>
    requires AllDigits(ds)
  {
    if ds == [] then None else Some(Value(ds))
  }

  /**
   * The target a stat's counter animates to, or None when the counter is not started: the
   * parse is NaN or 0, both falsy.
   */
  function CounterTarget(text: string): (r: Option<nat>)
    ensures r.Some? ==> r.value > 0
  {
    match ParseDigits(DigitsOnly(text))
      case None => None
      case Some(n) => if n != 0 then Some(n) else None
  }

  /** A counter starts exactly when the stat's text contains a digit other than 0. */
  lemma {:induction false} CounterStartsIff(text: string)
    ensures CounterTarget(text).Some? <==> HasNonZeroDigit(text)
  {
    DigitsOnlyNonZero(text);
    ValueZero(DigitsOnly(text));
  }

  /** The decimal rendering of a number, as a template literal writes it: no leading zero but for 0 itself. */
  function Decimal(n: nat): (s: string)
    ensures AllDigits(s) && |s| > 0
    ensures s[0] == '0' ==> n == 0
  {
    var last := ['0' + (n % 10) as char];
    if n < 10 then last else Decimal(n / 10) + last
  }

  /** Parsing the decimal rendering of n gives back n. */
  lemma {:induction false} ValueOfDecimal(n: nat)
    ensures Value(Decimal(n)) == n
  {
    var s := Decimal(n);
    if n >= 10 {
      ValueOfDecimal(n / 10);
      assert s[..|s| - 1] == Decimal(n / 10);
    }
  }

  /**
   * A stat written as a positive number followed by text without digits ("98%", "500+")
   * animates to exactly that number.
   */
  lemma {:induction false} CounterOfRendered(n: nat, suffix: string)
    requires n > 0
    requires forall i :: 0 <= i < |suffix| ==> !IsDigit(suffix[i])
    ensures CounterTarget(Decimal(n) + suffix) == Some(n)
  {
    DigitsOnlyConcat(Decimal(n), suffix);
    DigitsOnlyOfDigits(Decimal(n));
    DigitsOnlyOfNonDigits(suffix);
    assert DigitsOnly(Decimal(n) + suffix) == Decimal(n);
    ValueOfDecimal(n);
  }
}
