/**
 * The few pieces of PHP's semantics the storage core relies on: truthiness of a
 * setting that may be null, the `?:` operator, string conversion of null, and
 * `sprintf` for formats whose only conversion is `%s`.
 */
module Php {
  import opened Wrappers

  /** PHP truthiness of a string-or-null: `null`, `""` and `"0"` are false. */
  predicate Truthy(v: Option<string>)
    ensures Truthy(v) ==> v.Some? && v.value != ""
    ensures v.Some? && |v.value| >= 2 ==> Truthy(v)
  {
    v.Some? && v.value != "" && v.value != "0"
  }

  /** `(string) $v`: null converts to the empty string. */
  function ToString(v: Option<string>): (s: string)
    ensures v.Some? ==> s == v.value
    ensures v.None? ==> s == ""
  {
    v.GetOr("")
  }

  /** `$v ?: $default` on a string. */
  function Elvis(v: string, default: string): (r: string)
    ensures r == v || r == default
    ensures Truthy(Some(default)) ==> Truthy(Some(r))
    ensures Truthy(Some(v)) ==> r == v
  {
    if Truthy(Some(v)) then v else default
  }

  /** A format every `%` of which starts a `%s` conversion. */
  predicate StringFormat(fmt: string)
    decreases |fmt|
  {
    if fmt == [] then true
    else if fmt[0] == '%' then |fmt| >= 2 && fmt[1] == 's' && StringFormat(fmt[2..])
    else StringFormat(fmt[1..])
  }

  /** The number of `%s` conversions in a format, i.e. how many arguments it consumes. */
  function Conversions(fmt: string): nat
    requires StringFormat(fmt)
    decreases |fmt|
  {
    if fmt == [] then 0
    else if fmt[0] == '%' then 1 + Conversions(fmt[2..])
    else Conversions(fmt[1..])
  }

  /**
   * `sprintf($fmt, ...$args)` for a `%s`-only format: each `%s` is replaced by the
   * next argument, everything else is copied. PHP throws when there are fewer
   * arguments than conversions; callers here always supply enough.
   */
  function Sprintf(fmt: string, args: seq<string>): (r: string)
    requires StringFormat(fmt) && Conversions(fmt) <= |args|
    ensures Conversions(fmt) == 0 ==> r == fmt
    decreases |fmt|
  {
    if fmt == [] then ""
    else if fmt[0] == '%' then args[0] + Sprintf(fmt[2..], args[1..])
    else [fmt[0]] + Sprintf(fmt[1..], args)
  }

  /** Text without `%` in front of a format adds no conversion. */
  lemma {:induction false} LiteralPrefixFormat(lit: string, rest: string)
    requires '%' !in lit && StringFormat(rest)
    ensures StringFormat(lit + rest) && Conversions(lit + rest) == Conversions(rest)
    decreases |lit|
  {
    if lit == [] {
      assert lit + rest == rest;
    } else {
      var h := lit + rest;
      assert lit == [lit[0]] + lit[1..];
      assert h[0] == lit[0] && h[1..] == lit[1..] + rest;
      LiteralPrefixFormat(lit[1..], rest);
    }
  }

  /** Text without `%` in front of a format is copied verbatim and consumes no argument. */
  lemma {:induction false} LiteralPrefix(lit: string, rest: string, args: seq<string>)
    requires '%' !in lit && StringFormat(rest) && Conversions(rest) <= |args|
    ensures StringFormat(lit + rest) && Conversions(lit + rest) == Conversions(rest)
    ensures Sprintf(lit + rest, args) == lit + Sprintf(rest, args)
    decreases |lit|
  {
    LiteralPrefixFormat(lit, rest);
    if lit == [] {
      assert lit + rest == rest;
    } else {
      var t := lit[1..] + rest;
      assert lit == [lit[0]] + lit[1..];
      assert lit + rest == [lit[0]] + t;
      LiteralPrefix(lit[1..], rest, args);
      LiteralStep(lit[0], t, args);
      calc {
        Sprintf(lit + rest, args);
        [lit[0]] + Sprintf(t, args);
        [lit[0]] + (lit[1..] + Sprintf(rest, args));
        ([lit[0]] + lit[1..]) + Sprintf(rest, args);
      }
    }
  }

  /** One character other than `%` in front of a format is copied and consumes no argument. */
  lemma LiteralStep(c: char, fmt: string, args: seq<string>)
    requires c != '%' && StringFormat(fmt) && Conversions(fmt) <= |args|
    ensures StringFormat([c] + fmt) && Conversions([c] + fmt) == Conversions(fmt)
    ensures Sprintf([c] + fmt, args) == [c] + Sprintf(fmt, args)
  {
    var h := [c] + fmt;
    assert h[0] == c && h[1..] == fmt;
  }

  /** A `%s` in front of a format prints the first argument; the rest of the format consumes the others. */
  lemma ConversionPrefix(rest: string, args: seq<string>)
    requires StringFormat(rest) && 1 + Conversions(rest) <= |args|
    ensures StringFormat("%s" + rest) && Conversions("%s" + rest) == 1 + Conversions(rest)
    ensures Sprintf("%s" + rest, args) == args[0] + Sprintf(rest, args[1..])
  {
    var h := "%s" + rest;
    assert h[0] == '%' && h[1] == 's' && h[2..] == rest;
  }

  /** `sprintf('%s/%s', $a, $b)`: the two strings joined by one slash. */
  lemma JoinWithSlash(a: string, b: string)
    ensures StringFormat("%s/%s") && Conversions("%s/%s") == 2
    ensures Sprintf("%s/%s", [a, b]) == a + "/" + b
  {
    var args := [a, b];
    assert "%s/%s" == "%s" + ("/" + ("%s" + ""));
    ConversionPrefix("", args[1..]);
    LiteralPrefix("/", "%s" + "", args[1..]);
    ConversionPrefix("/" + ("%s" + ""), args);
  }

  /** A format with two `%s` conversions between literal texts prints the texts with the two arguments in place. */
  lemma TwoConversions(l0: string, l1: string, l2: string, a: string, b: string)
    requires '%' !in l0 && '%' !in l1 && '%' !in l2
    ensures StringFormat(l0 + ("%s" + (l1 + ("%s" + l2))))
    ensures Conversions(l0 + ("%s" + (l1 + ("%s" + l2)))) == 2
    ensures Sprintf(l0 + ("%s" + (l1 + ("%s" + l2))), [a, b]) == l0 + a + l1 + b + l2
  {
    var args := [a, b];
    var tail := l1 + ("%s" + l2);
    OneConversionBetween(l1, l2, args[1..]);
    assert args[1..][0] == b;
    ConversionPrefix(tail, args);
    LiteralPrefix(l0, "%s" + tail, args);
  }

  /** Literal text, one `%s` and literal text print the texts around the first argument. */
  lemma OneConversionBetween(l1: string, l2: string, args: seq<string>)
    requires '%' !in l1 && '%' !in l2 && |args| >= 1
    ensures StringFormat(l1 + ("%s" + l2)) && Conversions(l1 + ("%s" + l2)) == 1
    ensures Sprintf(l1 + ("%s" + l2), args) == l1 + args[0] + l2
  {
    LiteralPrefix(l2, "", args[1..]);
    assert l2 + "" == l2;
    ConversionPrefix(l2, args);
    LiteralPrefix(l1, "%s" + l2, args);
  }

  /** Text without `%` followed by one `%s` prints the text and then the argument. */
  lemma TrailingConversion(lit: string, a: string)
    requires '%' !in lit
    ensures StringFormat(lit + "%s") && Conversions(lit + "%s") == 1
    ensures Sprintf(lit + "%s", [a]) == lit + a
  {
    ConversionPrefix("", [a]);
    assert "%s" + "" == "%s";
    LiteralPrefix(lit, "%s", [a]);
  }
}
