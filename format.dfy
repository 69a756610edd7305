/**
 * The part of Go's `fmt.Sprintf` that builds request URLs from the endpoint
 * template: every argument is a string, `%s` and `%v` print the next argument
 * verbatim, `%%` prints a percent sign, and an argument-count mismatch or a
 * trailing `%` is reported inline the way `fmt` does.
 */
module Format {

  predicate NoPercent(s: string) {
    forall i :: 0 <= i < |s| ==> s[i] != '%'
  }

  /** `string=a, string=b, ...`: how `fmt` lists surplus string arguments. */
  function TypedList(args: seq<string>): string
    decreases |args|
  {
    if args == [] then ""
    else if |args| == 1 then "string=" + args[0]
    else "string=" + args[0] + ", " + TypedList(args[1..])
  }

  function Extra(args: seq<string>): string {
    if args == [] then "" else "%!(EXTRA " + TypedList(args) + ")"
  }

  function Sprintf(format: string, args: seq<string>): string
    decreases |format|
  {
    if format == [] then Extra(args)
    else if format[0] != '%' then [format[0]] + Sprintf(format[1..], args)
    else if |format| == 1 then "%!(NOVERB)" + Extra(args)
    else
      var verb := format[1];
      if verb == '%' then "%" + Sprintf(format[2..], args)
      else if args == [] then "%!" + [verb] + "(MISSING)" + Sprintf(format[2..], [])
      else if verb == 's' || verb == 'v' then args[0] + Sprintf(format[2..], args[1..])
      else "%!" + [verb] + "(string=" + args[0] + ")" + Sprintf(format[2..], args[1..])
  }

  /** Text without a percent sign is copied through unchanged, whatever the arguments. */
  lemma {:induction false} LiteralPrefix(s: string, rest: string, args: seq<string>)
    requires NoPercent(s)
    ensures Sprintf(s + rest, args) == s + Sprintf(rest, args)
    decreases |s|
  {
    if s == [] {
      assert s + rest == rest;
    } else {
      var f := s + rest;
      assert f[0] == s[0] && f[1..] == s[1..] + rest;
      LiteralPrefix(s[1..], rest, args);
      assert [s[0]] + s[1..] == s;
    }
  }

  /** `%s` prints its argument verbatim: a `%` inside the argument is not interpreted. */
  lemma VerbPrintsArgument(rest: string, a: string, more: seq<string>)
    ensures Sprintf("%s" + rest, [a] + more) == a + Sprintf(rest, more)
  {
    var f := "%s" + rest;
    assert f[0] == '%' && f[1] == 's' && f[2..] == rest;
    assert ([a] + more)[1..] == more;
  }

  /** A template without verbs and without arguments is printed as it is. */
  lemma LiteralWhole(q: string)
    requires NoPercent(q)
    ensures Sprintf(q, []) == q
  {
    LiteralPrefix(q, [], []);
    assert q + [] == q;
  }

  /** Literal text, one `%s` verb, then the rest of the template. */
  lemma OneHole(m: string, rest: string, a: string, more: seq<string>)
    requires NoPercent(m)
    ensures Sprintf(m + "%s" + rest, [a] + more) == m + a + Sprintf(rest, more)
  {
    assert m + "%s" + rest == m + ("%s" + rest);
    LiteralPrefix(m, "%s" + rest, [a] + more);
    VerbPrintsArgument(rest, a, more);
  }

  /**
   * A template with exactly two `%s` verbs and otherwise literal text puts the
   * two arguments in the two holes and nothing else.
   */
  lemma TwoHoleTemplate(p: string, m: string, q: string, a: string, b: string)
    requires NoPercent(p) && NoPercent(m) && NoPercent(q)
    ensures Sprintf(p + "%s" + m + "%s" + q, [a, b]) == p + a + m + b + q
  {
    var rest := m + "%s" + q;
    assert p + "%s" + m + "%s" + q == p + "%s" + rest;
    assert [a, b] == [a] + [b];
    OneHole(p, rest, a, [b]);
    assert [b] == [b] + [];
    OneHole(m, q, b, []);
    LiteralWhole(q);
  }
}
