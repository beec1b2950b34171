/** The fragment of Go's `regexp` the link classifiers use: a pattern anchored at the start (`^`)
    but not at the end, made of literal text and capture groups `(C+)` over one character class,
    queried with `MatchString` and `FindStringSubmatch`. */
module Regexp {
  import opened Wrappers
  import Fmt

  /** `[^/]` (which, in Go, also matches a newline), `.` (anything but a newline) and `[0-9]`. */
  datatype Class = NotSlash | NotNewline | Digit

  predicate InClass(k: Class, c: char)
  {
    match k
    case NotSlash => c != '/'
    case NotNewline => c != '\n'
    case Digit => '0' <= c <= '9'
  }

  predicate AllIn(k: Class, s: string)
  {
    forall i :: 0 <= i < |s| ==> InClass(k, s[i])
  }

  /** A non-empty path segment: what `[^/]+` captures. */
  predicate Segment(s: string)
  {
    s != [] && forall i :: 0 <= i < |s| ==> s[i] != '/'
  }

  /** Groups that are runs of `[^/]` are segments. */
  lemma SegmentRun(g: string)
    requires g != [] && AllIn(NotSlash, g)
    ensures Segment(g)
  {
    forall i | 0 <= i < |g| ensures g[i] != '/' {
      assert InClass(NotSlash, g[i]);
    }
  }

  /** A literal (no metacharacters) or a greedy capture group `(k+)`. */
  datatype Atom = Lit(text: string) | Group(kind: Class)

  type Pattern = seq<Atom>

  /** Length of the longest prefix of `s` inside class `k`: what a greedy `k+` consumes. */
  function RunLength(k: Class, s: string): (n: nat)
    ensures n <= |s| && AllIn(k, s[..n])
    ensures n < |s| ==> !InClass(k, s[n])
  {
    if s == [] || !InClass(k, s[0]) then 0
    else
      var m := RunLength(k, s[1..]);
      assert s[..m + 1] == [s[0]] + s[1..][..m];
      m + 1
  }

  /** A successful anchored match: the number of characters matched and the capture groups. */
  datatype Submatch = Submatch(length: nat, groups: seq<string>)

  /** Matches `p` at the start of `s`, every group taking its longest run. */
  function Match(p: Pattern, s: string): (r: Option<Submatch>)
    ensures r.Some? ==> r.value.length <= |s|
  {
    if p == [] then Some(Submatch(0, []))
    else match p[0]
      case Lit(t) =>
        if t <= s then
          match Match(p[1..], s[|t|..])
          case None => None
          case Some(m) => Some(Submatch(|t| + m.length, m.groups))
        else None
      case Group(k) =>
        var n := RunLength(k, s);
        if n == 0 then None
        else
          match Match(p[1..], s[n..])
          case None => None
          case Some(m) => Some(Submatch(n + m.length, [s[..n]] + m.groups))
  }

  /** `regexp.MatchString`. */
  function MatchString(p: Pattern, s: string): bool
  {
    Match(p, s).Some?
  }

  /** `regexp.FindStringSubmatch`: the whole match followed by the groups, or an empty slice. */
  function FindSubmatch(p: Pattern, s: string): (r: seq<string>)
    ensures MatchString(p, s) <==> r != []
  {
    match Match(p, s)
    case None => []
    case Some(m) => [s[..m.length]] + m.groups
  }

  function GroupCount(p: Pattern): nat
  {
    if p == [] then 0 else (if p[0].Group? then 1 else 0) + GroupCount(p[1..])
  }

  /** The text `p` matches when its groups capture `gs`. */
  function Instance(p: Pattern, gs: seq<string>): string
  {
    if p == [] then ""
    else match p[0]
      case Lit(t) => t + Instance(p[1..], gs)
      case Group(_) => if gs == [] then Instance(p[1..], []) else gs[0] + Instance(p[1..], gs[1..])
  }

  /** `gs` is a possible capture list for `p`: one non-empty run of the right class per group. */
  predicate Fits(p: Pattern, gs: seq<string>)
  {
    if p == [] then gs == []
    else match p[0]
      case Lit(_) => Fits(p[1..], gs)
      case Group(k) => gs != [] && gs[0] != [] && AllIn(k, gs[0]) && Fits(p[1..], gs[1..])
  }

  /** Every group but a final one is followed by a non-empty literal starting outside its class, so
      the group cannot run past its own end and the greedy choice is the only one. */
  predicate WellFormed(p: Pattern)
  {
    p == [] ||
    ((p[0].Group? && |p| > 1 ==>
        p[1].Lit? && p[1].text != [] && !InClass(p[0].kind, p[1].text[0]))
     && WellFormed(p[1..]))
  }

  /** After an instance of `p`, `rest` does not continue a final group. */
  predicate Boundary(p: Pattern, rest: string)
  {
    if p == [] then true
    else if |p| == 1 && p[0].Group? then rest == [] || !InClass(p[0].kind, rest[0])
    else Boundary(p[1..], rest)
  }

  /** Soundness: a match is an instance of the pattern at the start of `s`. */
  lemma {:induction false} MatchSound(p: Pattern, s: string)
    requires MatchString(p, s)
    ensures Fits(p, Match(p, s).value.groups)
    ensures s[..Match(p, s).value.length] == Instance(p, Match(p, s).value.groups)
    decreases |p|, 1
  {
    if p != [] {
      match p[0]
      case Lit(t) => MatchSoundLit(p, s);
      case Group(k) => MatchSoundGroup(p, s);
    }
  }

  lemma {:induction false} MatchSoundLit(p: Pattern, s: string)
    requires p != [] && p[0].Lit? && MatchString(p, s)
    ensures Fits(p, Match(p, s).value.groups)
    ensures s[..Match(p, s).value.length] == Instance(p, Match(p, s).value.groups)
    decreases |p|, 0
  {
    var t := p[0].text;
    var s' := s[|t|..];
    MatchSound(p[1..], s');
    var m := Match(p[1..], s').value;
    PrefixSplit(s, |t|, m.length);
  }

  lemma {:induction false} MatchSoundGroup(p: Pattern, s: string)
    requires p != [] && p[0].Group? && MatchString(p, s)
    ensures Fits(p, Match(p, s).value.groups)
    ensures s[..Match(p, s).value.length] == Instance(p, Match(p, s).value.groups)
    decreases |p|, 0
  {
    var n := RunLength(p[0].kind, s);
    var s' := s[n..];
    MatchSound(p[1..], s');
    var m := Match(p[1..], s').value;
    ConsParts(s[..n], m.groups);
    PrefixSplit(s, n, m.length);
  }

  lemma {:induction false} RunLengthExact(k: Class, g: string, u: string)
    requires AllIn(k, g)
    requires u == [] || !InClass(k, u[0])
    ensures RunLength(k, g + u) == |g|
  {
    if g == [] {
      assert g + u == u;
    } else {
      assert (g + u)[0] == g[0] && (g + u)[1..] == g[1..] + u;
      RunLengthExact(k, g[1..], u);
    }
  }

  lemma {:induction false} InstanceStartsWithLiteral(p: Pattern, gs: seq<string>)
    requires p != [] && p[0].Lit?
    ensures p[0].text <= Instance(p, gs)
  {
  }

  /** Completeness: on a well-formed pattern, an instance followed by a boundary is matched with
      exactly its own groups. */
  lemma {:induction false} MatchInstance(p: Pattern, gs: seq<string>, rest: string)
    requires WellFormed(p) && Fits(p, gs) && Boundary(p, rest)
    ensures Match(p, Instance(p, gs) + rest) == Some(Submatch(|Instance(p, gs)|, gs))
    decreases |p|, 1
  {
    if p != [] {
      if p[0].Lit? {
        MatchInstanceLit(p, gs, rest);
      } else {
        MatchInstanceGroup(p, gs, rest);
      }
    }
  }

  lemma {:induction false} MatchInstanceLit(p: Pattern, gs: seq<string>, rest: string)
    requires p != [] && p[0].Lit?
    requires WellFormed(p) && Fits(p, gs) && Boundary(p, rest)
    ensures Match(p, Instance(p, gs) + rest) == Some(Submatch(|Instance(p, gs)|, gs))
    decreases |p|, 0
  {
    var t, u := LitTail(p, gs, rest);
    MatchInstance(p[1..], gs, rest);
    LitStep(p, u + rest, Submatch(|u|, gs));
    ConcatAssoc(t, u, rest);
  }

  /** What the preconditions of `MatchInstanceLit` say about the rest of the pattern. */
  lemma {:induction false} LitTail(p: Pattern, gs: seq<string>, rest: string) returns (t: string, u: string)
    requires p != [] && p[0].Lit?
    requires WellFormed(p) && Fits(p, gs) && Boundary(p, rest)
    ensures p[0] == Lit(t)
    ensures WellFormed(p[1..]) && Fits(p[1..], gs) && Boundary(p[1..], rest)
    ensures u == Instance(p[1..], gs) && Instance(p, gs) == t + u
  {
    t, u := p[0].text, Instance(p[1..], gs);
    BoundaryTail(p, rest);
  }

  /** One unfolding of `Match` at a literal. */
  lemma {:induction false} LitStep(p: Pattern, v: string, m: Submatch)
    requires p != [] && p[0].Lit? && Match(p[1..], v) == Some(m)
    ensures Match(p, p[0].text + v) == Some(Submatch(|p[0].text| + m.length, m.groups))
  {
    SplitAt(p[0].text, v);
  }

  /** A boundary only looks at the last atom: it holds when that is a literal, or when `rest` does
      not continue the final group. */
  lemma {:induction false} BoundaryLast(p: Pattern, rest: string)
    requires p != []
    ensures Boundary(p, rest) <==>
      (p[|p| - 1].Lit? || rest == [] || !InClass(p[|p| - 1].kind, rest[0]))
  {
    if |p| > 1 {
      BoundaryLast(p[1..], rest);
      assert p[1..][|p| - 2] == p[|p| - 1];
    }
  }

  lemma {:induction false} BoundaryTail(p: Pattern, rest: string)
    requires p != [] && Boundary(p, rest)
    ensures Boundary(p[1..], rest)
  {
  }

  lemma {:induction false} MatchInstanceGroup(p: Pattern, gs: seq<string>, rest: string)
    requires p != [] && p[0].Group?
    requires WellFormed(p) && Fits(p, gs) && Boundary(p, rest)
    ensures Match(p, Instance(p, gs) + rest) == Some(Submatch(|Instance(p, gs)|, gs))
    decreases |p|, 0
  {
    var g, u := GroupTail(p, gs, rest);
    MatchInstance(p[1..], gs[1..], rest);
    GroupRun(p, gs, rest);
    InstanceGroupGlue(p, g, u, rest, gs);
  }

  /** `Match` at a leading group that runs exactly over the first capture, once the rest of the
      pattern has been matched. */
  lemma {:induction false} InstanceGroupGlue(p: Pattern, g: string, u: string, rest: string, gs: seq<string>)
    requires p != [] && p[0].Group? && gs != [] && g == gs[0]
    requires 0 < |g| == RunLength(p[0].kind, g + (u + rest))
    requires Match(p[1..], u + rest) == Some(Submatch(|u|, gs[1..]))
    ensures Match(p, (g + u) + rest) == Some(Submatch(|g + u|, gs))
  {
    ConcatAssoc(g, u, rest);
    GroupUnfold(p, g, u + rest);
    AfterCons(g, u, gs);
  }

  /** A group capturing `gs[0]` in front of a match of the rest capturing `gs[1..]`. */
  lemma AfterCons(g: string, u: string, gs: seq<string>)
    requires gs != [] && g == gs[0]
    ensures After(|g|, [g], Some(Submatch(|u|, gs[1..]))) == Some(Submatch(|g + u|, gs))
  {
    ConsTail(gs);
  }

  /** What the preconditions of `MatchInstanceGroup` say about the rest of the pattern. */
  lemma {:induction false} GroupTail(p: Pattern, gs: seq<string>, rest: string) returns (g: string, u: string)
    requires p != [] && p[0].Group?
    requires WellFormed(p) && Fits(p, gs) && Boundary(p, rest)
    ensures gs != [] && g == gs[0] && g != [] && AllIn(p[0].kind, g)
    ensures WellFormed(p[1..]) && Fits(p[1..], gs[1..]) && Boundary(p[1..], rest)
    ensures u == Instance(p[1..], gs[1..]) && Instance(p, gs) == g + u
  {
    g, u := gs[0], Instance(p[1..], gs[1..]);
    BoundaryTail(p, rest);
  }

  /** The group of a well-formed pattern stops exactly at the end of its capture. */
  lemma {:induction false} GroupRun(p: Pattern, gs: seq<string>, rest: string)
    requires p != [] && p[0].Group?
    requires WellFormed(p) && Fits(p, gs) && Boundary(p, rest)
    ensures gs != [] && RunLength(p[0].kind, gs[0] + (Instance(p[1..], gs[1..]) + rest)) == |gs[0]|
  {
    var p', k, g := p[1..], p[0].kind, gs[0];
    var u := Instance(p', gs[1..]);
    if p' == [] {
      assert u + rest == rest;
      RunLengthExact(k, g, rest);
    } else {
      InstanceStartsWithLiteral(p', gs[1..]);
      assert (u + rest)[0] == p'[0].text[0];
      RunLengthExact(k, g, u + rest);
    }
  }

  /** A match of `q` after `n` characters already matched with groups `gs`. */
  function After(n: nat, gs: seq<string>, r: Option<Submatch>): Option<Submatch>
  {
    match r
    case None => None
    case Some(m) => Some(Submatch(n + m.length, gs + m.groups))
  }

  /** Matching `p + q` against an instance of a well-formed `p` followed by `rest` is matching `q`
      against `rest`: the groups of `p` are captured exactly and `q` succeeds or fails on its own. */
  lemma {:induction false} MatchAppend(p: Pattern, q: Pattern, gs: seq<string>, rest: string)
    requires WellFormed(p) && Fits(p, gs) && Boundary(p, rest)
    ensures Match(p + q, Instance(p, gs) + rest) == After(|Instance(p, gs)|, gs, Match(q, rest))
    decreases |p|, 1
  {
    if p == [] {
      assert p + q == q && Instance(p, gs) + rest == rest && gs == [];
      match Match(q, rest)
      case None =>
      case Some(m) => assert [] + m.groups == m.groups;
    } else if p[0].Lit? {
      MatchAppendLit(p, q, gs, rest);
    } else {
      MatchAppendGroup(p, q, gs, rest);
    }
  }

  lemma {:induction false} MatchAppendLit(p: Pattern, q: Pattern, gs: seq<string>, rest: string)
    requires p != [] && p[0].Lit?
    requires WellFormed(p) && Fits(p, gs) && Boundary(p, rest)
    ensures Match(p + q, Instance(p, gs) + rest) == After(|Instance(p, gs)|, gs, Match(q, rest))
    decreases |p|, 0
  {
    var t, u := LitTail(p, gs, rest);
    MatchAppend(p[1..], q, gs, rest);
    LitGlue(p, q, t, u, rest, gs);
  }

  /** `Match` of `p + q` at a leading literal of `p`, once the rest of `p` has been matched. */
  lemma {:induction false} LitGlue(p: Pattern, q: Pattern, t: string, u: string, rest: string, gs: seq<string>)
    requires p != [] && p[0] == Lit(t)
    requires Match(p[1..] + q, u + rest) == After(|u|, gs, Match(q, rest))
    ensures Match(p + q, (t + u) + rest) == After(|t + u|, gs, Match(q, rest))
  {
    AppendTail(p, q);
    ConcatAssoc(t, u, rest);
    LitUnfold(p + q, u + rest);
    AfterChain(Match(p + q, t + (u + rest)), Match(p[1..] + q, u + rest), Match(q, rest), t, [], u, gs);
    ConcatEmpty(gs);
  }

  lemma {:induction false} MatchAppendGroup(p: Pattern, q: Pattern, gs: seq<string>, rest: string)
    requires p != [] && p[0].Group?
    requires WellFormed(p) && Fits(p, gs) && Boundary(p, rest)
    ensures Match(p + q, Instance(p, gs) + rest) == After(|Instance(p, gs)|, gs, Match(q, rest))
    decreases |p|, 0
  {
    var g, u := GroupTail(p, gs, rest);
    MatchAppend(p[1..], q, gs[1..], rest);
    GroupRun(p, gs, rest);
    GroupGlue(p, q, g, u, rest, gs);
  }

  /** `Match` of `p + q` at a leading group of `p` that runs exactly over the first capture, once
      the rest of `p` has been matched. */
  lemma {:induction false} GroupGlue(p: Pattern, q: Pattern, g: string, u: string, rest: string, gs: seq<string>)
    requires p != [] && p[0].Group? && gs != [] && g == gs[0]
    requires 0 < |g| == RunLength(p[0].kind, g + (u + rest))
    requires Match(p[1..] + q, u + rest) == After(|u|, gs[1..], Match(q, rest))
    ensures Match(p + q, (g + u) + rest) == After(|g + u|, gs, Match(q, rest))
  {
    AppendTail(p, q);
    ConcatAssoc(g, u, rest);
    GroupUnfold(p + q, g, u + rest);
    AfterChain(Match(p + q, g + (u + rest)), Match(p[1..] + q, u + rest), Match(q, rest), g, [g], u, gs[1..]);
    ConsTail(gs);
  }

  /** Two matches in a row, as one. */
  lemma AfterChain(x: Option<Submatch>, y: Option<Submatch>, z: Option<Submatch>,
                   t: string, g1: seq<string>, u: string, g2: seq<string>)
    requires x == After(|t|, g1, y) && y == After(|u|, g2, z)
    ensures x == After(|t + u|, g1 + g2, z)
  {
    AfterAfter(|t|, g1, |u|, g2, z);
  }

  // Sequence identities used by the proofs in this project. Each is a lemma of its own so that
  // the proofs that use it stay small.

  lemma SplitAt<T>(a: seq<T>, b: seq<T>)
    ensures (a + b)[..|a|] == a && (a + b)[|a|..] == b
  {
  }

  lemma PrefixSplit<T>(s: seq<T>, i: nat, j: nat)
    requires i + j <= |s|
    ensures s[..i + j] == s[..i] + s[i..][..j]
  {
  }

  lemma ConsParts<T>(x: T, xs: seq<T>)
    ensures ([x] + xs)[0] == x && ([x] + xs)[1..] == xs
  {
  }

  lemma ConcatAssoc<T>(a: seq<T>, b: seq<T>, c: seq<T>)
    ensures (a + b) + c == a + (b + c)
  {
  }

  lemma ConcatEmpty<T>(a: seq<T>)
    ensures [] + a == a
  {
  }

  lemma AppendEmpty<T>(a: seq<T>)
    ensures a + [] == a
  {
  }

  lemma Regroup4<T>(a: seq<T>, b: seq<T>, c: seq<T>, d: seq<T>)
    ensures a + b + c + d == a + (b + (c + d))
  {
  }

  lemma Cons4<T>(a: T, b: T, c: T, d: T)
    ensures [a, b, c, d] == [a] + ([b] + ([c] + [d]))
  {
  }

  lemma Flatten4<T>(a: T, b: T, c: T, d: T, e: T, f: T, g: T, h: T)
    ensures [a, b] + ([c, d] + ([e, f] + [g, h])) == [a, b, c, d, e, f, g, h]
  {
  }

  lemma ConsTail<T>(a: seq<T>)
    requires a != []
    ensures [a[0]] + a[1..] == a
  {
  }

  lemma AppendTail<T>(p: seq<T>, q: seq<T>)
    requires p != []
    ensures (p + q)[0] == p[0] && (p + q)[1..] == p[1..] + q
  {
  }

  /** A literal and a group in front of a well-formed pattern keep it well formed when the
      pattern is empty or starts with a literal the group cannot run into. */
  lemma WellFormedLitGroup(t: string, k: Class, q: Pattern)
    requires WellFormed(q)
    requires q != [] ==> q[0].Lit? && q[0].text != [] && !InClass(k, q[0].text[0])
    ensures WellFormed([Lit(t), Group(k)] + q)
  {
    var p := [Lit(t), Group(k)] + q;
    assert p[1..] == [Group(k)] + q;
    assert p[1..][1..] == q;
  }

  /** A literal in front of a well-formed pattern keeps it well formed. */
  lemma WellFormedLit(t: string, q: Pattern)
    requires WellFormed(q)
    ensures WellFormed([Lit(t)] + q)
  {
    assert ([Lit(t)] + q)[1..] == q;
  }

  /** One unfolding of `Match` at a literal, whatever the rest of the match gives. */
  lemma {:induction false} LitUnfold(p: Pattern, v: string)
    requires p != [] && p[0].Lit?
    ensures Match(p, p[0].text + v) == After(|p[0].text|, [], Match(p[1..], v))
  {
    SplitAt(p[0].text, v);
    match Match(p[1..], v)
    case None =>
    case Some(m) => ConcatEmpty(m.groups);
  }

  /** One unfolding of `Match` at a group that runs exactly over `g`. */
  lemma {:induction false} GroupUnfold(p: Pattern, g: string, v: string)
    requires p != [] && p[0].Group? && 0 < |g| == RunLength(p[0].kind, g + v)
    ensures Match(p, g + v) == After(|g|, [g], Match(p[1..], v))
  {
    SplitAt(g, v);
  }

  lemma AfterAfter(n1: nat, g1: seq<string>, n2: nat, g2: seq<string>, r: Option<Submatch>)
    ensures After(n1, g1, After(n2, g2, r)) == After(n1 + n2, g1 + g2, r)
  {
    match r
    case None =>
    case Some(m) => assert g1 + (g2 + m.groups) == (g1 + g2) + m.groups;
  }

  /** The pattern built by substituting a capture group for each verb of an URL template, as
      `regexp.MustCompile(fmt.Sprintf(template, "([^/]+)", ...))` does; the template's literal text
      holds no regular-expression metacharacters. */
  function Compile(f: Fmt.Format, classes: seq<Class>): (p: Pattern)
    ensures GroupCount(p) == Fmt.Verbs(f)
    ensures |p| == |f|
  {
    if f == [] then []
    else match f[0]
      case Text(t) => [Lit(t)] + Compile(f[1..], classes)
      case Verb =>
        [Group(if classes == [] then NotSlash else classes[0])]
        + Compile(f[1..], if classes == [] then [] else classes[1..])
  }

  /** A literal followed by one verb compiles to the literal and one group. */
  lemma CompileTextVerb(t: string, k: Class)
    ensures Fmt.Verbs([Fmt.Text(t), Fmt.Verb]) == 1
    ensures Compile([Fmt.Text(t), Fmt.Verb], [k]) == [Lit(t), Group(k)]
  {
    var f := [Fmt.Text(t), Fmt.Verb];
    assert f[1..] == [Fmt.Verb];
    assert Fmt.Verbs([Fmt.Verb]) == 1 + Fmt.Verbs([]);
    assert Compile([Fmt.Verb], [k]) == [Group(k)];
  }

  /** Compiling a concatenation, with one class per verb of the first part, is concatenating. */
  lemma {:induction false} CompileConcat(f: Fmt.Format, g: Fmt.Format, cs: seq<Class>, ds: seq<Class>)
    requires |cs| == Fmt.Verbs(f)
    ensures Compile(f + g, cs + ds) == Compile(f, cs) + Compile(g, ds)
  {
    if f == [] {
      ConcatEmpty(g);
      ConcatEmpty(ds);
    } else {
      AppendTail(f, g);
      match f[0]
      case Text(t) =>
        CompileConcat(f[1..], g, cs, ds);
      case Verb =>
        AppendTail(cs, ds);
        CompileConcat(f[1..], g, cs[1..], ds);
    }
  }

  /** Groups that are non-empty runs of their verbs' classes fit the compiled template. */
  lemma {:induction false} CompileFits(f: Fmt.Format, cs: seq<Class>, gs: seq<string>)
    requires |gs| == |cs| == Fmt.Verbs(f)
    requires forall i :: 0 <= i < |gs| ==> gs[i] != [] && AllIn(cs[i], gs[i])
    ensures Fits(Compile(f, cs), gs)
  {
    if f != [] {
      var p := Compile(f, cs);
      match f[0]
      case Text(t) =>
        assert p[1..] == Compile(f[1..], cs);
        CompileFits(f[1..], cs, gs);
      case Verb =>
        assert p[1..] == Compile(f[1..], cs[1..]);
        CompileFits(f[1..], cs[1..], gs[1..]);
    }
  }

  /** Conversely, groups that fit the compiled template are non-empty runs of their classes. */
  lemma {:induction false} FitsCompile(f: Fmt.Format, cs: seq<Class>, gs: seq<string>)
    requires |cs| == Fmt.Verbs(f) && Fits(Compile(f, cs), gs)
    ensures |gs| == |cs|
    ensures forall i :: 0 <= i < |gs| ==> gs[i] != [] && AllIn(cs[i], gs[i])
  {
    if f == [] {
    } else {
      var p := Compile(f, cs);
      match f[0]
      case Text(t) =>
        assert p[1..] == Compile(f[1..], cs);
        FitsCompile(f[1..], cs, gs);
      case Verb =>
        assert p[1..] == Compile(f[1..], cs[1..]);
        FitsCompile(f[1..], cs[1..], gs[1..]);
        forall i | 0 < i < |gs| ensures gs[i] != [] && AllIn(cs[i], gs[i]) {
          assert gs[i] == gs[1..][i - 1] && cs[i] == cs[1..][i - 1];
        }
    }
  }

  /** The text a compiled template matches is the template filled with the captured groups. */
  lemma {:induction false} CompileInstance(f: Fmt.Format, classes: seq<Class>, gs: seq<string>)
    requires |gs| == Fmt.Verbs(f)
    ensures Instance(Compile(f, classes), gs) == Fmt.Sprintf(f, gs)
  {
    InstanceFill(f, classes, gs);
  }

  lemma {:induction false} InstanceFill(f: Fmt.Format, classes: seq<Class>, gs: seq<string>)
    requires |gs| == Fmt.Verbs(f)
    ensures Instance(Compile(f, classes), gs) == Fmt.Substitute(f, gs)
  {
    if f != [] {
      var p := Compile(f, classes);
      match f[0]
      case Text(t) =>
        assert p[1..] == Compile(f[1..], classes);
        InstanceFill(f[1..], classes, gs);
      case Verb =>
        var ks := if classes == [] then [] else classes[1..];
        assert p[1..] == Compile(f[1..], ks);
        InstanceFill(f[1..], ks, gs[1..]);
    }
  }
}
