/** Sequences as the application's code uses them: `Array.prototype.filter`, the
    order a filter keeps, and sortedness under a comparator. */
module Sequencias {

  /** `a` is obtained from `b` by deleting elements: the order of `b` is kept. */
  predicate Subsequencia<T(==)>(a: seq<T>, b: seq<T>)
  {
    if a == [] then true
    else if b == [] then false
    else (a[|a| - 1] == b[|b| - 1] && Subsequencia(a[..|a| - 1], b[..|b| - 1]))
         || Subsequencia(a, b[..|b| - 1])
  }

  /** `xs.filter(p)`: the elements satisfying `p`, in their order. */
  function Filtro<T>(p: T -> bool, xs: seq<T>): (r: seq<T>)
    ensures |r| <= |xs|
    ensures forall k :: 0 <= k < |r| ==> p(r[k])
  {
    if xs == [] then []
    else if p(xs[|xs| - 1]) then Filtro(p, xs[..|xs| - 1]) + [xs[|xs| - 1]]
    else Filtro(p, xs[..|xs| - 1])
  }

  /** A filter keeps the order of what it keeps. */
  lemma {:induction false} FiltroSubsequencia<T>(p: T -> bool, xs: seq<T>)
    ensures Subsequencia(Filtro(p, xs), xs)
  {
    if xs != [] {
      var r := Filtro(p, xs);
      FiltroSubsequencia(p, xs[..|xs| - 1]);
      if p(xs[|xs| - 1]) {
        assert r[..|r| - 1] == Filtro(p, xs[..|xs| - 1]);
      }
    }
  }

  /** A filter keeps every occurrence of what passes and nothing else. */
  lemma {:induction false} FiltroMultiset<T(!new)>(p: T -> bool, xs: seq<T>)
    ensures forall x :: multiset(Filtro(p, xs))[x] == if p(x) then multiset(xs)[x] else 0
  {
    if xs != [] {
      FiltroMultiset(p, xs[..|xs| - 1]);
      assert xs == xs[..|xs| - 1] + [xs[|xs| - 1]];
    }
  }

  lemma {:induction false} FiltroVazioSse<T(!new)>(p: T -> bool, xs: seq<T>)
    ensures Filtro(p, xs) == [] <==> forall k :: 0 <= k < |xs| ==> !p(xs[k])
  {
    FiltroMultiset(p, xs);
    if Filtro(p, xs) == [] {
      forall k | 0 <= k < |xs| ensures !p(xs[k]) {
        assert xs[k] in multiset(xs);
        assert multiset(Filtro(p, xs))[xs[k]] == 0;
      }
    } else {
      var r := Filtro(p, xs);
      assert r[0] in multiset(r);
      assert r[0] in multiset(xs);
      var k :| 0 <= k < |xs| && xs[k] == r[0];
    }
  }

  /** A filter that every element passes keeps the whole sequence. */
  lemma {:induction false} FiltroTodos<T(!new)>(p: T -> bool, xs: seq<T>)
    requires forall k :: 0 <= k < |xs| ==> p(xs[k])
    ensures Filtro(p, xs) == xs
  {
    if xs != [] {
      FiltroTodos(p, xs[..|xs| - 1]);
    }
  }

  /** Filtering depends only on the values the predicate takes on the elements. */
  lemma {:induction false} FiltroExtensional<T(!new)>(p: T -> bool, q: T -> bool, xs: seq<T>)
    requires forall k :: 0 <= k < |xs| ==> p(xs[k]) == q(xs[k])
    ensures Filtro(p, xs) == Filtro(q, xs)
  {
    if xs != [] {
      FiltroExtensional(p, q, xs[..|xs| - 1]);
    }
  }

  /** Filtering one more element at the end. */
  lemma FiltroPasso<T(!new)>(p: T -> bool, xs: seq<T>, n: nat)
    requires n < |xs|
    ensures Filtro(p, xs[..n + 1]) == Filtro(p, xs[..n]) + (if p(xs[n]) then [xs[n]] else [])
  {
    assert xs[..n + 1][..n] == xs[..n];
  }

  function Mapear<T, U>(f: T -> U, xs: seq<T>): (r: seq<U>)
    ensures |r| == |xs| && forall k :: 0 <= k < |xs| ==> r[k] == f(xs[k])
  {
    seq(|xs|, k requires 0 <= k < |xs| => f(xs[k]))
  }

  lemma {:induction false} SubsequenciaMapeada<T, U>(f: T -> U, a: seq<T>, b: seq<T>)
    requires Subsequencia(a, b)
    ensures Subsequencia(Mapear(f, a), Mapear(f, b))
  {
    if a != [] {
      var fa, fb := Mapear(f, a), Mapear(f, b);
      assert fa[..|fa| - 1] == Mapear(f, a[..|a| - 1]);
      assert fb[..|fb| - 1] == Mapear(f, b[..|b| - 1]);
      if a[|a| - 1] == b[|b| - 1] && Subsequencia(a[..|a| - 1], b[..|b| - 1]) {
        SubsequenciaMapeada(f, a[..|a| - 1], b[..|b| - 1]);
      } else {
        SubsequenciaMapeada(f, a, b[..|b| - 1]);
      }
    }
  }

  predicate SemRepeticao<T(==)>(s: seq<T>)
  {
    forall i, j :: 0 <= i < j < |s| ==> s[i] != s[j]
  }

  lemma {:induction false} SubsequenciaElementos<T>(a: seq<T>, b: seq<T>)
    requires Subsequencia(a, b)
    ensures multiset(a) <= multiset(b)
  {
    if a != [] {
      assert b == b[..|b| - 1] + [b[|b| - 1]];
      if a[|a| - 1] == b[|b| - 1] && Subsequencia(a[..|a| - 1], b[..|b| - 1]) {
        SubsequenciaElementos(a[..|a| - 1], b[..|b| - 1]);
        assert a == a[..|a| - 1] + [a[|a| - 1]];
      } else {
        SubsequenciaElementos(a, b[..|b| - 1]);
      }
    }
  }

  /** A subsequence of a sequence without repetitions has none either, and is no longer. */
  lemma {:induction false} SubsequenciaSemRepeticao<T>(a: seq<T>, b: seq<T>)
    requires Subsequencia(a, b) && SemRepeticao(b)
    ensures SemRepeticao(a) && |a| <= |b|
  {
    if a != [] {
      var a', b' := a[..|a| - 1], b[..|b| - 1];
      if a[|a| - 1] == b[|b| - 1] && Subsequencia(a', b') {
        SubsequenciaSemRepeticao(a', b');
        SubsequenciaElementos(a', b');
        forall i | 0 <= i < |a'| ensures a'[i] != a[|a| - 1] {
          assert a'[i] in multiset(b');
          var k :| 0 <= k < |b'| && b'[k] == a'[i];
        }
      } else {
        SubsequenciaSemRepeticao(a, b');
      }
    }
  }

  /** `f` maps different arguments to different results. */
  ghost predicate Injetiva<T(!new), U>(f: T -> U)
  {
    forall a, b :: f(a) == f(b) ==> a == b
  }

  lemma MapearSemRepeticao<T(!new), U>(f: T -> U, xs: seq<T>)
    requires Injetiva(f) && SemRepeticao(xs)
    ensures SemRepeticao(Mapear(f, xs))
  {
  }

  /** Under an injective map, `f(x)` is among the images exactly when `x` is among the arguments. */
  lemma MapearPertence<T(!new), U>(f: T -> U, xs: seq<T>, x: T)
    requires Injetiva(f)
    ensures f(x) in Mapear(f, xs) <==> x in xs
  {
    var ys := Mapear(f, xs);
    if f(x) in ys {
      var k :| 0 <= k < |ys| && ys[k] == f(x);
      assert xs[k] == x;
    }
    if x in xs {
      var k :| 0 <= k < |xs| && xs[k] == x;
      assert ys[k] == f(x);
    }
  }

  /** `s` is non-decreasing under `menorIgual`, every pair compared. */
  ghost predicate Ordenada<T>(menorIgual: (T, T) -> bool, s: seq<T>)
  {
    forall i, j :: 0 <= i < j < |s| ==> menorIgual(s[i], s[j])
  }

  /** A comparator that is total and transitive, as `sort` expects of its `compareFn`. */
  ghost predicate PreordemTotal<T(!new)>(menorIgual: (T, T) -> bool)
  {
    Total(menorIgual) && forall x, y, z :: menorIgual(x, y) && menorIgual(y, z) ==> menorIgual(x, z)
  }

  ghost predicate Total<T(!new)>(menorIgual: (T, T) -> bool)
  {
    forall x, y :: menorIgual(x, y) || menorIgual(y, x)
  }

  /** Every neighbour pair in order. */
  ghost predicate VizinhosEmOrdem<T>(menorIgual: (T, T) -> bool, s: seq<T>)
  {
    forall k :: 0 < k < |s| ==> menorIgual(s[k - 1], s[k])
  }

  lemma {:induction false} VizinhosParaOrdenada<T(!new)>(menorIgual: (T, T) -> bool, s: seq<T>)
    requires PreordemTotal(menorIgual) && VizinhosEmOrdem(menorIgual, s)
    ensures Ordenada(menorIgual, s)
  {
    if |s| > 1 {
      var t := s[..|s| - 1];
      assert VizinhosEmOrdem(menorIgual, t);
      VizinhosParaOrdenada(menorIgual, t);
      assert forall i :: 0 <= i < |s| - 2 ==> menorIgual(s[i], s[|s| - 2]);
    }
  }

  /** Exchanges `a[j - 1]` and `a[j]`. */
  method Trocar<T>(a: array<T>, j: nat)
    requires 0 < j < a.Length
    modifies a
    ensures a[..] == old(a[..])[j - 1 := old(a[j])][j := old(a[j - 1])]
    ensures multiset(a[..]) == old(multiset(a[..]))
  {
    a[j - 1], a[j] := a[j], a[j - 1];
  }

  /** Moves `a[i]` left past the elements that must come after it, so that `a[..i + 1]` is in order. */
  method Inserir<T(!new)>(a: array<T>, i: nat, menorIgual: (T, T) -> bool)
    requires Total(menorIgual)
    requires i < a.Length && VizinhosEmOrdem(menorIgual, a[..i])
    modifies a
    ensures VizinhosEmOrdem(menorIgual, a[..i + 1])
    ensures multiset(a[..i + 1]) == old(multiset(a[..i + 1]))
    ensures a[i + 1..] == old(a[i + 1..])
  {
    ghost var inicio := a[..];
    var j := i;
    InsercaoComeca(menorIgual, inicio, i);
    while j > 0 && !menorIgual(a[j - 1], a[j])
      invariant 0 <= j <= i
      invariant PrefixoPermutado(inicio, a[..], i + 1)
      invariant EmInsercao(menorIgual, a[..], i, j)
    {
      ghost var antes := a[..];
      Trocar(a, j);
      TrocaNoPrefixo(inicio, antes, a[..], j, i + 1);
      OrdemAposTroca(menorIgual, antes, a[..], j, i);
      j := j - 1;
    }
    InsercaoTermina(menorIgual, a[..], i, j);
  }

  /** `depois` holds what `antes` holds in its first `n` places, in some order, and the
      same from `n` on. */
  ghost predicate PrefixoPermutado<T>(antes: seq<T>, depois: seq<T>, n: nat)
  {
    && n <= |antes| == |depois|
    && multiset(depois[..n]) == multiset(antes[..n])
    && depois[n..] == antes[n..]
  }

  /** While `Inserir` moves the element at `j` left, every neighbour pair up to `i` is in
      order except the one ending at `j`, and the pair around `j` is. */
  ghost predicate EmInsercao<T>(menorIgual: (T, T) -> bool, s: seq<T>, i: nat, j: nat)
  {
    && j <= i < |s|
    && (forall k :: 0 < k <= i && k != j ==> menorIgual(s[k - 1], s[k]))
    && (0 < j < i ==> menorIgual(s[j - 1], s[j + 1]))
  }

  lemma InsercaoComeca<T>(menorIgual: (T, T) -> bool, s: seq<T>, i: nat)
    requires i < |s| && VizinhosEmOrdem(menorIgual, s[..i])
    ensures EmInsercao(menorIgual, s, i, i)
  {
    forall k | 0 < k < i ensures menorIgual(s[k - 1], s[k]) {
      assert s[..i][k - 1] == s[k - 1] && s[..i][k] == s[k];
    }
  }

  lemma InsercaoTermina<T>(menorIgual: (T, T) -> bool, s: seq<T>, i: nat, j: nat)
    requires EmInsercao(menorIgual, s, i, j)
    requires j == 0 || menorIgual(s[j - 1], s[j])
    ensures VizinhosEmOrdem(menorIgual, s[..i + 1])
  {
    var t := s[..i + 1];
    forall k | 0 < k < |t| ensures menorIgual(t[k - 1], t[k]) {
      assert t[k - 1] == s[k - 1] && t[k] == s[k];
    }
  }

  /** The ordering step of `Inserir`: after the exchange, the element being moved sits
      at `j - 1` and every other neighbour pair up to `i` stays in order. */
  lemma OrdemAposTroca<T(!new)>(menorIgual: (T, T) -> bool, antes: seq<T>, depois: seq<T>, j: nat, i: nat)
    requires Total(menorIgual)
    requires EmInsercao(menorIgual, antes, i, j) && 0 < j && !menorIgual(antes[j - 1], antes[j])
    requires depois == antes[j - 1 := antes[j]][j := antes[j - 1]]
    ensures EmInsercao(menorIgual, depois, i, j - 1)
  {
    assert menorIgual(antes[j], antes[j - 1]);
  }

  /** Rearranging a prefix and keeping the rest rearranges the whole. */
  lemma PrefixoESufixo<T>(antes: seq<T>, depois: seq<T>, n: nat)
    requires n <= |antes| == |depois|
    requires multiset(depois[..n]) == multiset(antes[..n]) && depois[n..] == antes[n..]
    ensures multiset(depois) == multiset(antes)
  {
    assert depois == depois[..n] + depois[n..];
    assert antes == antes[..n] + antes[n..];
  }

  /** Exchanging two neighbours inside a prefix keeps what the prefix holds and leaves
      the rest alone. */
  lemma TrocaNoPrefixo<T>(inicio: seq<T>, antes: seq<T>, depois: seq<T>, j: nat, n: nat)
    requires PrefixoPermutado(inicio, antes, n) && 0 < j < n
    requires depois == antes[j - 1 := antes[j]][j := antes[j - 1]]
    ensures PrefixoPermutado(inicio, depois, n)
  {
    assert depois[..n] == antes[..n][j - 1 := antes[j]][j := antes[j - 1]];
  }

  /** `a.sort(compareFn)`, in place: an insertion sort. */
  method Ordenar<T(!new)>(a: array<T>, menorIgual: (T, T) -> bool)
    requires PreordemTotal(menorIgual)
    modifies a
    ensures multiset(a[..]) == old(multiset(a[..]))
    ensures Ordenada(menorIgual, a[..])
  {
    var i := 0;
    while i < a.Length
      invariant 0 <= i <= a.Length
      invariant VizinhosEmOrdem(menorIgual, a[..i])
      invariant multiset(a[..]) == old(multiset(a[..]))
    {
      ghost var antes := a[..];
      Inserir(a, i, menorIgual);
      PrefixoESufixo(antes, a[..], i + 1);
      i := i + 1;
    }
    assert a[..a.Length] == a[..];
    VizinhosParaOrdenada(menorIgual, a[..]);
  }
}
