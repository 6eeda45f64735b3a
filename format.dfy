/** The part of Go's `fmt.Sprintf` that the client's error messages use:
    literal text, the verb `%d` applied to integer arguments, and `%%`. */
module Format {
  import opened Decimal

  /** The format uses no verb other than `%d` and `%%` (a lone `%` at the very
      end is allowed; Go renders it as `%!(NOVERB)`). */
  predicate IntVerbsOnly(f: string)
    decreases |f|
  {
    if f == [] then true
    else if f[0] == '%' && |f| >= 2 then (f[1] == 'd' || f[1] == '%') && IntVerbsOnly(f[2..])
    else IntVerbsOnly(f[1..])
  }

  /** `int=5, int=-2`: how Go lists arguments that no verb consumed. */
  function ExtraList(args: seq<int>): string
    decreases |args|
  {
    if args == [] then ""
    else if |args| == 1 then "int=" + FormatInt(args[0])
    else "int=" + FormatInt(args[0]) + ", " + ExtraList(args[1..])
  }

  function Extra(args: seq<int>): string {
    if args == [] then "" else "%!(EXTRA " + ExtraList(args) + ")"
  }

  /** `fmt.Sprintf(f, args...)` with integer arguments: `%d` takes the next
      argument, or renders `%!d(MISSING)` when none is left; unused arguments
      are listed after the text. */
  function Sprintf(f: string, args: seq<int>): (r: string)
    requires IntVerbsOnly(f)
    ensures '%' !in f ==> r == f + Extra(args)
    decreases |f|
  {
    if f == [] then Extra(args)
    else if f[0] == '%' then
      if |f| == 1 then "%!(NOVERB)" + Extra(args)
      else if f[1] == '%' then "%" + Sprintf(f[2..], args)
      else if args == [] then "%!d(MISSING)" + Sprintf(f[2..], args)
      else FormatInt(args[0]) + Sprintf(f[2..], args[1..])
    else
      var rest := Sprintf(f[1..], args);
      LiteralStep(f, rest, Extra(args));
      [f[0]] + rest
  }

  /** Copying one literal character in front of the rendered rest keeps a
      verb-free format followed by the trailing text `e`. */
  lemma LiteralStep(f: string, rest: string, e: string)
    requires f != [] && f[0] != '%'
    requires '%' !in f[1..] ==> rest == f[1..] + e
    ensures '%' !in f ==> [f[0]] + rest == f + e
  {
    if '%' !in f {
      var t := f[1..];
      assert '%' !in t;
      assert [f[0]] + (t + e) == ([f[0]] + t) + e;
      assert [f[0]] + t == f;
    }
  }

  lemma {:induction false} PlainIntVerbsOnly(f: string)
    requires '%' !in f
    ensures IntVerbsOnly(f)
    decreases |f|
  {
    if f != [] {
      PlainIntVerbsOnly(f[1..]);
    }
  }

  /** A format without verbs and without arguments is its own rendering. */
  lemma SprintfPlain(f: string)
    requires '%' !in f
    ensures IntVerbsOnly(f) && Sprintf(f, []) == f
  {
    PlainIntVerbsOnly(f);
    assert f + Extra([]) == f;
  }

  /** A leading literal character is copied to the output. */
  lemma SprintfCons(c: char, t: string, args: seq<int>)
    requires c != '%' && IntVerbsOnly(t)
    ensures IntVerbsOnly([c] + t) && Sprintf([c] + t, args) == [c] + Sprintf(t, args)
  {
    var f := [c] + t;
    assert f[0] == c && f[1..] == t;
  }

  /** A leading `%d` consumes the one argument. */
  lemma SprintfVerb(b: string, n: int)
    requires IntVerbsOnly(b)
    ensures IntVerbsOnly("%d" + b) && Sprintf("%d" + b, [n]) == FormatInt(n) + Sprintf(b, [])
  {
    var f := "%d" + b;
    assert f[0] == '%' && f[1] == 'd' && f[2..] == b;
    assert [n][1..] == [];
  }

  lemma ConsAppend(a: string, x: string)
    requires a != []
    ensures a + x == [a[0]] + (a[1..] + x)
  {
  }

  /** A format with one `%d` and one argument renders the argument in decimal
      in place of the verb, leaving the text around it as it is. */
  lemma {:induction false} SprintfOneInt(a: string, b: string, n: int)
    requires '%' !in a && '%' !in b
    ensures IntVerbsOnly(a + ("%d" + b))
    ensures Sprintf(a + ("%d" + b), [n]) == a + (FormatInt(n) + b)
    decreases |a|
  {
    var x, y := "%d" + b, FormatInt(n) + b;
    if a == [] {
      assert a + x == x && a + y == y;
      SprintfPlain(b);
      SprintfVerb(b, n);
    } else {
      assert a[0] != '%' by {
        assert a[0] in a;
      }
      ConsAppend(a, x);
      ConsAppend(a, y);
      SprintfOneInt(a[1..], b, n);
      SprintfCons(a[0], a[1..] + x, [n]);
    }
  }
}
