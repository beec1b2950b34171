/** Go format strings built only from literal text and `%s` verbs (all the core's URL templates
    are), and what `fmt.Sprintf` makes of them, including its markers for a missing or an extra
    argument. */
module Fmt {

  /** One piece of a format string: literal text (holding no `%`) or a `%s` verb. */
  datatype Piece = Text(text: string) | Verb

  type Format = seq<Piece>

  /** The number of `%s` verbs. */
  function Verbs(f: Format): nat
  {
    if f == [] then 0 else (if f[0].Verb? then 1 else 0) + Verbs(f[1..])
  }

  /** One piece as it is written in the Go source. */
  function PieceText(p: Piece): string
  {
    match p
    case Text(t) => t
    case Verb => "%s"
  }

  /** The format string as it is written in the Go source. */
  function Render(f: Format): string
  {
    if f == [] then "" else PieceText(f[0]) + Render(f[1..])
  }

  /** Each verb replaced by the next argument; `%!s(MISSING)` once the arguments run out. */
  function Substitute(f: Format, args: seq<string>): string
  {
    if f == [] then ""
    else match f[0]
      case Text(t) => t + Substitute(f[1..], args)
      case Verb =>
        if args == [] then "%!s(MISSING)" + Substitute(f[1..], [])
        else args[0] + Substitute(f[1..], args[1..])
  }

  /** The `string=a, string=b` list Go appends for unused string arguments. */
  function ExtraList(args: seq<string>): string
  {
    if args == [] then ""
    else if |args| == 1 then "string=" + args[0]
    else "string=" + args[0] + ", " + ExtraList(args[1..])
  }

  /** `fmt.Sprintf(Render(f), args...)` for string arguments. */
  function Sprintf(f: Format, args: seq<string>): string
  {
    Substitute(f, args) + (if |args| > Verbs(f) then "%!(EXTRA " + ExtraList(args[Verbs(f)..]) + ")" else "")
  }

  lemma {:induction false} VerbsConcat(f: Format, g: Format)
    ensures Verbs(f + g) == Verbs(f) + Verbs(g)
  {
    if f == [] {
      assert f + g == g;
    } else {
      assert (f + g)[0] == f[0] && (f + g)[1..] == f[1..] + g;
      VerbsConcat(f[1..], g);
    }
  }

  lemma {:induction false} RenderConcat(f: Format, g: Format)
    ensures Render(f + g) == Render(f) + Render(g)
  {
    if f == [] {
      assert f + g == g;
    } else {
      assert (f + g)[0] == f[0] && (f + g)[1..] == f[1..] + g;
      RenderConcat(f[1..], g);
    }
  }

  /** Substituting into a concatenated format: the first part takes the first arguments. */
  lemma {:induction false} SubstituteConcat(f: Format, g: Format, a: seq<string>, b: seq<string>)
    requires |a| == Verbs(f)
    ensures Substitute(f + g, a + b) == Substitute(f, a) + Substitute(g, b)
  {
    if f == [] {
      assert f + g == g && a + b == b;
    } else {
      assert (f + g)[0] == f[0] && (f + g)[1..] == f[1..] + g;
      if f[0].Verb? {
        assert (a + b)[0] == a[0] && (a + b)[1..] == a[1..] + b;
        SubstituteConcat(f[1..], g, a[1..], b);
      } else {
        SubstituteConcat(f[1..], g, a, b);
      }
    }
  }

  /** With exactly one argument per verb, Sprintf of a concatenated format is the concatenation. */
  lemma SprintfConcat(f: Format, g: Format, a: seq<string>, b: seq<string>)
    requires |a| == Verbs(f) && |b| == Verbs(g)
    ensures Sprintf(f + g, a + b) == Sprintf(f, a) + Sprintf(g, b)
  {
    VerbsConcat(f, g);
    SubstituteConcat(f, g, a, b);
  }

  /** A literal followed by one verb, given one argument: the literal, then the argument. */
  lemma SprintfTextVerb(a: string, x: string)
    ensures Sprintf([Text(a), Verb], [x]) == a + x
  {
    var f := [Text(a), Verb];
    assert f[1..] == [Verb];
    assert [Verb][1..] == [];
    assert [x][1..] == [];
    assert Verbs(f) == 1 by {
      assert Verbs([Verb]) == 1 + Verbs([]);
    }
    assert Substitute([Verb], [x]) == x + Substitute([], []);
    assert Substitute(f, [x]) == a + Substitute([Verb], [x]);
  }

  /** A lone literal, given no argument, is printed as it is. */
  lemma SprintfText(a: string)
    ensures Sprintf([Text(a)], []) == a
  {
    assert [Text(a)][1..] == [];
    assert Substitute([Text(a)], []) == a + Substitute([], []);
  }

  /** A leading verb takes the first argument. */
  lemma VerbFill(x: string, f: Format, args: seq<string>)
    requires |args| == Verbs(f)
    ensures Verbs([Verb] + f) == 1 + Verbs(f)
    ensures Sprintf([Verb] + f, [x] + args) == x + Sprintf(f, args)
  {
    var g := [Verb] + f;
    assert g[0] == Verb && g[1..] == f;
    assert ([x] + args)[0] == x && ([x] + args)[1..] == args;
  }

  /** A literal and a verb in front of a template take one more argument. */
  lemma FillStep(t: string, x: string, f: Format, args: seq<string>)
    requires |args| == Verbs(f)
    ensures Verbs([Text(t), Verb] + f) == 1 + Verbs(f)
    ensures Sprintf([Text(t), Verb] + f, [x] + args) == t + x + Sprintf(f, args)
  {
    SprintfTextVerb(t, x);
    assert Verbs([Text(t), Verb]) == 1 by {
      assert [Text(t), Verb][1..] == [Verb];
      assert Verbs([Verb]) == 1 + Verbs([]);
    }
    VerbsConcat([Text(t), Verb], f);
    SprintfConcat([Text(t), Verb], f, [x], args);
  }

  /** Four literal-and-verb pairs in a row take four arguments, each behind its literal. */
  lemma {:induction false} FillFour(t1: string, t2: string, t3: string, t4: string, a: string, b: string, c: string, n: string)
    ensures Verbs([Text(t1), Verb] + [Text(t2), Verb] + [Text(t3), Verb] + [Text(t4), Verb]) == 4
    ensures Sprintf([Text(t1), Verb] + [Text(t2), Verb] + [Text(t3), Verb] + [Text(t4), Verb], [a, b, c, n])
         == t1 + a + (t2 + b + (t3 + c + (t4 + n)))
  {
    var p1, p2, p3, p4 := [Text(t1), Verb], [Text(t2), Verb], [Text(t3), Verb], [Text(t4), Verb];
    FillStep(t4, n, [], []);
    assert p4 + [] == p4 && [n] + [] == [n];
    SprintfText("");
    assert t4 + n + "" == t4 + n;
    FillStep(t3, c, p4, [n]);
    FillStep(t2, b, p3 + p4, [c] + [n]);
    FillStep(t1, a, p2 + (p3 + p4), [b] + ([c] + [n]));
    assert p1 + p2 + p3 + p4 == p1 + (p2 + (p3 + p4));
    assert [a] + ([b] + ([c] + [n])) == [a, b, c, n];
  }

  /** Three literal-and-verb pairs in a row take three arguments, each behind its literal. */
  lemma {:induction false} FillThree(t1: string, t2: string, t3: string, a: string, b: string, c: string)
    ensures Verbs([Text(t1), Verb] + [Text(t2), Verb] + [Text(t3), Verb]) == 3
    ensures Sprintf([Text(t1), Verb] + [Text(t2), Verb] + [Text(t3), Verb], [a, b, c]) == t1 + a + (t2 + b + (t3 + c))
  {
    var p1, p2, p3 := [Text(t1), Verb], [Text(t2), Verb], [Text(t3), Verb];
    FillStep(t3, c, [], []);
    assert p3 + [] == p3 && [c] + [] == [c];
    SprintfText("");
    assert t3 + c + "" == t3 + c;
    FillStep(t2, b, p3, [c]);
    FillStep(t1, a, p2 + p3, [b] + [c]);
    assert p1 + p2 + p3 == p1 + (p2 + p3);
    assert [a] + ([b] + [c]) == [a, b, c];
  }

  /** A literal and a verb rendered as Go source. */
  lemma RenderTextVerb(t: string)
    ensures Render([Text(t), Verb]) == t + "%s"
  {
    assert [Text(t), Verb][1..] == [Verb];
    assert Render([Verb]) == "%s" + Render([]);
  }

  /** Three literal-and-verb pairs rendered as Go source. */
  lemma RenderThree(t1: string, t2: string, t3: string)
    ensures Render([Text(t1), Verb] + [Text(t2), Verb] + [Text(t3), Verb]) == t1 + "%s" + (t2 + "%s" + (t3 + "%s"))
  {
    var p1, p2, p3 := [Text(t1), Verb], [Text(t2), Verb], [Text(t3), Verb];
    assert p1 + p2 + p3 == p1 + (p2 + p3);
    RenderConcat(p1, p2 + p3);
    RenderConcat(p2, p3);
    RenderTextVerb(t1);
    RenderTextVerb(t2);
    RenderTextVerb(t3);
  }

  /** Four literal-and-verb pairs rendered as Go source. */
  lemma RenderFour(t1: string, t2: string, t3: string, t4: string)
    ensures Render([Text(t1), Verb] + [Text(t2), Verb] + [Text(t3), Verb] + [Text(t4), Verb])
         == t1 + "%s" + (t2 + "%s" + (t3 + "%s" + (t4 + "%s")))
  {
    var p1, p2, p3, p4 := [Text(t1), Verb], [Text(t2), Verb], [Text(t3), Verb], [Text(t4), Verb];
    assert p1 + p2 + p3 + p4 == p1 + (p2 + p3 + p4);
    RenderConcat(p1, p2 + p3 + p4);
    RenderTextVerb(t1);
    RenderThree(t2, t3, t4);
  }
}
