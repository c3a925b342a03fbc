/** Parameterised SQL text as the data-access layer hands it to the connection
    pool: literal text with positional placeholders `$1`, `$2`, ..., plus the
    array of values bound to those positions. */
module Sql {

  /** A value bound to a placeholder: the layer passes strings and numbers. */
  datatype Param = Text(s: string) | Num(n: int)

  /** A piece of query text: literal SQL, or the placeholder `$index`. */
  datatype Token = Sql(text: string) | Placeholder(index: nat)

  /** A piece of the query once its parameters are bound: literal SQL, the value
      bound to a placeholder, or a placeholder naming no parameter. */
  datatype Piece = Word(text: string) | Value(value: Param) | Unbound(index: nat)

  /** A query text (as tokens) together with its parameter array. */
  datatype Query = Query(tokens: seq<Token>, params: seq<Param>)

  predicate IsDigit(c: char) {
    '0' <= c <= '9'
  }

  function DigitValue(c: char): nat
    requires IsDigit(c)
  {
    c as int - '0' as int
  }

  function DigitChar(d: nat): (c: char)
    requires d < 10
    ensures IsDigit(c) && DigitValue(c) == d
  {
    ('0' as int + d) as char
  }

  predicate AllDigits(s: string) {
    forall i :: 0 <= i < |s| ==> IsDigit(s[i])
  }

  /** The decimal notation of `n`, as JavaScript's template strings print an integer. */
  function Decimal(n: nat): string
    decreases n
  {
    if n < 10 then [DigitChar(n)] else Decimal(n / 10) + [DigitChar(n % 10)]
  }

  /** The notation is a non-empty string of digits without a leading zero. */
  lemma {:induction false} DecimalDigits(n: nat)
    ensures var s := Decimal(n);
      1 <= |s| && AllDigits(s) && (10 <= n ==> s[0] != '0')
    decreases n
  {
    if 10 <= n {
      DecimalDigits(n / 10);
    }
  }

  /** The number a string of decimal digits denotes. */
  function DecimalValue(s: string): nat
    requires AllDigits(s)
  {
    if s == [] then 0
    else DecimalValue(s[..|s| - 1]) * 10 + DigitValue(s[|s| - 1])
  }

  /** The printed placeholder number reads back as the same number. */
  lemma {:induction false} DecimalRoundTrip(n: nat)
    ensures AllDigits(Decimal(n)) && DecimalValue(Decimal(n)) == n
    decreases n
  {
    DecimalDigits(n);
    if 10 <= n {
      var s := Decimal(n);
      assert s[..|s| - 1] == Decimal(n / 10);
      DecimalRoundTrip(n / 10);
    }
  }

  function RenderToken(t: Token): string {
    match t
    case Sql(text) => text
    case Placeholder(i) => "$" + Decimal(i)
  }

  /** The query string the tokens spell. */
  function Render(ts: seq<Token>): string
    decreases |ts|
  {
    if ts == [] then "" else Render(ts[..|ts| - 1]) + RenderToken(ts[|ts| - 1])
  }

  lemma {:induction false} RenderSnoc(ts: seq<Token>, t: Token)
    ensures Render(ts + [t]) == Render(ts) + RenderToken(t)
  {
    assert (ts + [t])[..|ts|] == ts;
  }

  /** Literal text `a` followed by the placeholder `$k`. */
  lemma {:induction false} RenderSlot(ts: seq<Token>, a: string, k: nat)
    ensures Render(ts + [Sql(a), Placeholder(k)]) == Render(ts) + a + "$" + Decimal(k)
  {
    var s1 := ts + [Sql(a)];
    SnocPair(ts, Sql(a), Placeholder(k));
    RenderSnoc(ts, Sql(a));
    RenderSnoc(s1, Placeholder(k));
    Assoc(Render(s1), "$", Decimal(k));
  }

  /** Two literal-placeholder slots in a row. */
  lemma {:induction false} RenderSlots(ts: seq<Token>, a: string, k: nat, b: string, j: nat)
    ensures Render(ts + [Sql(a), Placeholder(k), Sql(b), Placeholder(j)])
         == Render(ts) + a + "$" + Decimal(k) + b + "$" + Decimal(j)
  {
    assert ts + [Sql(a), Placeholder(k), Sql(b), Placeholder(j)] == ts + [Sql(a), Placeholder(k)] + [Sql(b), Placeholder(j)];
    RenderSlot(ts, a, k);
    RenderSlot(ts + [Sql(a), Placeholder(k)], b, j);
  }

  /** A literal-placeholder slot closed by literal text `b`. */
  lemma {:induction false} RenderClose(ts: seq<Token>, a: string, k: nat, b: string)
    ensures Render(ts + [Sql(a), Placeholder(k), Sql(b)]) == Render(ts) + a + "$" + Decimal(k) + b
  {
    assert ts + [Sql(a), Placeholder(k), Sql(b)] == ts + [Sql(a), Placeholder(k)] + [Sql(b)];
    RenderSlot(ts, a, k);
    RenderSnoc(ts + [Sql(a), Placeholder(k)], Sql(b));
  }

  /** The placeholder numbers, in the order they appear in the text. */
  function Placeholders(ts: seq<Token>): seq<nat> {
    if ts == [] then [] else PlaceholderOf(ts[0]) + Placeholders(ts[1..])
  }

  function PlaceholderOf(t: Token): seq<nat> {
    if t.Placeholder? then [t.index] else []
  }

  lemma {:induction false} PlaceholdersCons(t: Token, ts: seq<Token>)
    ensures Placeholders([t] + ts) == PlaceholderOf(t) + Placeholders(ts)
  {
    assert ([t] + ts)[1..] == ts;
  }

  lemma {:induction false} PlaceholdersPair(a: Token, b: Token)
    ensures Placeholders([a, b]) == PlaceholderOf(a) + PlaceholderOf(b)
  {
    assert [a, b][1..] == [b];
    assert [b][1..] == [];
    assert Placeholders([b]) == PlaceholderOf(b) + [];
  }

  lemma {:induction false} PlaceholdersTriple(a: Token, b: Token, c: Token)
    ensures Placeholders([a, b, c]) == PlaceholderOf(a) + PlaceholderOf(b) + PlaceholderOf(c)
  {
    assert [a, b, c][1..] == [b, c];
    PlaceholdersPair(b, c);
  }

  lemma {:induction false} PlaceholdersQuad(a: Token, b: Token, c: Token, d: Token)
    ensures Placeholders([a, b, c, d])
         == PlaceholderOf(a) + PlaceholderOf(b) + PlaceholderOf(c) + PlaceholderOf(d)
  {
    assert [a, b, c, d][1..] == [b, c, d];
    PlaceholdersTriple(b, c, d);
  }

  lemma {:induction false} PlaceholdersAppend(a: seq<Token>, b: seq<Token>)
    ensures Placeholders(a + b) == Placeholders(a) + Placeholders(b)
  {
    if a != [] {
      assert (a + b)[1..] == a[1..] + b;
      PlaceholdersAppend(a[1..], b);
    } else {
      assert a + b == b;
    }
  }

  lemma {:induction false} Assoc<T>(a: seq<T>, b: seq<T>, c: seq<T>)
    ensures a + (b + c) == (a + b) + c
  {
  }

  /** A prefix `a + b` of `s` leaves `a` a prefix and `b` right after it. */
  lemma {:induction false} PrefixSplit<T>(a: seq<T>, b: seq<T>, s: seq<T>)
    requires a + b <= s
    ensures a <= s && s[|a|..|a| + |b|] == b
  {
    assert (a + b)[..|a|] == a;
    assert (a + b)[|a|..] == b;
  }

  lemma {:induction false} SnocPair<T>(s: seq<T>, x: T, y: T)
    ensures s + [x, y] == s + [x] + [y]
  {
  }

  /** The numbers `start`, `start + 1`, ..., `start + n - 1`. */
  function Consecutive(start: nat, n: nat): (r: seq<nat>)
    ensures |r| == n
  {
    if n == 0 then [] else Consecutive(start, n - 1) + [start + n - 1]
  }

  lemma {:induction false} ConsecutiveAt(start: nat, n: nat, i: nat)
    requires i < n
    ensures Consecutive(start, n)[i] == start + i
  {
    if i < n - 1 {
      ConsecutiveAt(start, n - 1, i);
    }
  }

  lemma {:induction false} ConsecutiveMember(start: nat, n: nat, x: nat)
    requires x in Consecutive(start, n)
    ensures start <= x < start + n
  {
    if x != start + n - 1 {
      ConsecutiveMember(start, n - 1, x);
    }
  }

  lemma {:induction false} ConsecutiveAppend(start: nat, n: nat, m: nat)
    ensures Consecutive(start, n) + Consecutive(start + n, m) == Consecutive(start, n + m)
    decreases m
  {
    if m == 0 {
      assert Consecutive(start, n) + [] == Consecutive(start, n);
    } else {
      ConsecutiveAppend(start, n, m - 1);
      Assoc(Consecutive(start, n), Consecutive(start + n, m - 1), [start + n + m - 1]);
    }
  }

  /** Appending literal text `t` and tokens numbered `$n+1` .. `$n+m` to tokens
      numbered `$1` .. `$n` gives tokens numbered `$1` .. `$n+m`. */
  lemma {:induction false} PlaceholdersExtend(ts: seq<Token>, n: nat, t: Token, more: seq<Token>, m: nat)
    requires Placeholders(ts) == Consecutive(1, n)
    requires t.Sql?
    requires Placeholders(more) == Consecutive(n + 1, m)
    ensures Placeholders(ts + [t] + more) == Consecutive(1, n + m)
  {
    PlaceholdersAppend(ts + [t], more);
    PlaceholdersSnocText(ts, t);
    ConsecutiveAppend(1, n, m);
  }

  /** Literal text adds no placeholder. */
  lemma {:induction false} PlaceholdersSnocText(ts: seq<Token>, t: Token)
    requires t.Sql?
    ensures Placeholders(ts + [t]) == Placeholders(ts)
  {
    PlaceholdersAppend(ts, [t]);
    assert [t][1..] == [];
    assert Placeholders([t]) == [];
    assert Placeholders(ts) + [] == Placeholders(ts);
  }


  /** Literal text, one placeholder `$n+1`, literal text, after `$1` .. `$n`. */
  lemma {:induction false} PlaceholdersClose(ts: seq<Token>, n: nat, a: string, b: string)
    requires Placeholders(ts) == Consecutive(1, n)
    ensures Placeholders(ts + [Sql(a), Placeholder(n + 1), Sql(b)]) == Consecutive(1, n + 1)
  {
    PlaceholdersAppend(ts, [Sql(a), Placeholder(n + 1), Sql(b)]);
    PlaceholdersTriple(Sql(a), Placeholder(n + 1), Sql(b));
    ConsecutiveAppend(1, n, 1);
  }

  /** Placeholders before literal text are unaffected by it. */
  lemma {:induction false} PlaceholdersAfterText(text: string, ts: seq<Token>)
    ensures Placeholders([Sql(text)] + ts) == Placeholders(ts)
  {
    PlaceholdersCons(Sql(text), ts);
  }

  /** How often token `t` occurs in `ts`. */
  function Count(ts: seq<Token>, t: Token): (n: nat)
    ensures n <= |ts|
    decreases |ts|
  {
    if ts == [] then 0 else Count(ts[..|ts| - 1], t) + (if ts[|ts| - 1] == t then 1 else 0)
  }

  lemma {:induction false} CountSnoc(ts: seq<Token>, x: Token, t: Token)
    ensures Count(ts + [x], t) == Count(ts, t) + (if x == t then 1 else 0)
  {
    assert (ts + [x])[..|ts|] == ts;
  }

  lemma {:induction false} CountAppend(a: seq<Token>, b: seq<Token>, t: Token)
    ensures Count(a + b, t) == Count(a, t) + Count(b, t)
    decreases |b|
  {
    if b == [] {
      assert a + b == a;
    } else {
      var init, x := b[..|b| - 1], b[|b| - 1];
      assert b == init + [x];
      Assoc(a, init, [x]);
      CountSnoc(a + init, x, t);
      CountAppend(a, init, t);
    }
  }

  lemma {:induction false} CountPair(a: Token, b: Token, t: Token)
    ensures Count([a, b], t) == (if a == t then 1 else 0) + (if b == t then 1 else 0)
  {
    assert [a, b] == [a] + [b];
    assert [a] == [] + [a];
    CountSnoc([], a, t);
    CountSnoc([a], b, t);
  }

  lemma {:induction false} CountQuad(a: Token, b: Token, c: Token, d: Token, t: Token)
    ensures Count([a, b, c, d], t)
         == (if a == t then 1 else 0) + (if b == t then 1 else 0) + (if c == t then 1 else 0) + (if d == t then 1 else 0)
  {
    assert [a, b, c, d] == [a, b] + [c] + [d];
    CountPair(a, b, t);
    CountSnoc([a, b], c, t);
    CountSnoc([a, b] + [c], d, t);
  }

  /** A token occurs in `ts` exactly when its count there is positive. */
  lemma {:induction false} CountPositive(ts: seq<Token>, t: Token)
    ensures Count(ts, t) > 0 <==> t in ts
    decreases |ts|
  {
    if ts != [] {
      var init := ts[..|ts| - 1];
      CountPositive(init, t);
      assert ts == init + [ts[|ts| - 1]];
    }
  }

  /** Substitutes for each placeholder `$i` the `i`-th parameter (counting from 1),
      as the database server does. */
  function BindToken(t: Token, params: seq<Param>): (p: Piece)
  {
    match t
    case Sql(text) => Word(text)
    case Placeholder(i) => if 1 <= i <= |params| then Value(params[i - 1]) else Unbound(i)
  }

  function Bind(ts: seq<Token>, params: seq<Param>): (r: seq<Piece>)
    ensures |r| == |ts|
  {
    if ts == [] then [] else [BindToken(ts[0], params)] + Bind(ts[1..], params)
  }

  lemma {:induction false} BindCons(t: Token, ts: seq<Token>, params: seq<Param>)
    ensures Bind([t] + ts, params) == [BindToken(t, params)] + Bind(ts, params)
  {
    assert ([t] + ts)[1..] == ts;
  }

  lemma {:induction false} BindPair(a: Token, b: Token, params: seq<Param>)
    ensures Bind([a, b], params) == [BindToken(a, params), BindToken(b, params)]
  {
    assert [a, b][1..] == [b];
    assert [b][1..] == [];
  }

  lemma {:induction false} BindTriple(a: Token, b: Token, c: Token, params: seq<Param>)
    ensures Bind([a, b, c], params) == [BindToken(a, params), BindToken(b, params), BindToken(c, params)]
  {
    assert [a, b, c][1..] == [b, c];
    BindPair(b, c, params);
  }

  lemma {:induction false} BindQuad(a: Token, b: Token, c: Token, d: Token, params: seq<Param>)
    ensures Bind([a, b, c, d], params)
         == [BindToken(a, params), BindToken(b, params), BindToken(c, params), BindToken(d, params)]
  {
    assert [a, b, c, d][1..] == [b, c, d];
    BindTriple(b, c, d, params);
  }

  lemma {:induction false} BindAppend(a: seq<Token>, b: seq<Token>, params: seq<Param>)
    ensures Bind(a + b, params) == Bind(a, params) + Bind(b, params)
  {
    if a != [] {
      assert (a + b)[1..] == a[1..] + b;
      BindAppend(a[1..], b, params);
    } else {
      assert a + b == b;
    }
  }

  lemma {:induction false} BindExtend(ts: seq<Token>, t: Token, more: seq<Token>, params: seq<Param>)
    ensures Bind(ts + [t] + more, params) == Bind(ts, params) + [BindToken(t, params)] + Bind(more, params)
  {
    BindAppend(ts + [t], more, params);
    BindAppend(ts, [t], params);
    BindCons(t, [], params);
    assert [t] + [] == [t];
  }

  lemma {:induction false} BindClose(ts: seq<Token>, a: string, k: nat, b: string, params: seq<Param>)
    ensures Bind(ts + [Sql(a), Placeholder(k), Sql(b)], params)
         == Bind(ts, params) + [Word(a), BindToken(Placeholder(k), params), Word(b)]
  {
    BindAppend(ts, [Sql(a), Placeholder(k), Sql(b)], params);
    BindTriple(Sql(a), Placeholder(k), Sql(b), params);
  }

  /** When the placeholders are exactly `$1` .. `$n` in order and there are `n`
      parameters, every placeholder names a parameter and every parameter is used. */
  lemma {:induction false} ConsecutiveBindsAll(q: Query)
    requires Placeholders(q.tokens) == Consecutive(1, |q.params|)
    ensures forall k :: 0 <= k < |q.tokens| ==> !Bind(q.tokens, q.params)[k].Unbound?
    ensures forall i :: 1 <= i <= |q.params| ==> i in Placeholders(q.tokens)
  {
    forall i | 1 <= i <= |q.params|
      ensures i in Placeholders(q.tokens)
    {
      ConsecutiveAt(1, |q.params|, i - 1);
    }
    forall k | 0 <= k < |q.tokens|
      ensures !Bind(q.tokens, q.params)[k].Unbound?
    {
      BindAt(q.tokens, q.params, k);
      if q.tokens[k].Placeholder? {
        PlaceholderListed(q.tokens, k);
        ConsecutiveMember(1, |q.params|, q.tokens[k].index);
      }
    }
  }

  lemma {:induction false} BindAt(ts: seq<Token>, params: seq<Param>, k: nat)
    requires k < |ts|
    ensures Bind(ts, params)[k] == BindToken(ts[k], params)
  {
    if k > 0 {
      BindAt(ts[1..], params, k - 1);
    }
  }

  lemma {:induction false} PlaceholderListed(ts: seq<Token>, k: nat)
    requires k < |ts| && ts[k].Placeholder?
    ensures ts[k].index in Placeholders(ts)
  {
    if k > 0 {
      PlaceholderListed(ts[1..], k - 1);
    }
  }
}
