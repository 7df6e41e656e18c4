/** The JavaScript string built-ins the application relies on: `trim`, the regular
    expression classes `\s` and `\d`, `replace(/\D/g, '')`, `toLowerCase`,
    `includes`, and the order `localeCompare` sorts names by. */
module Texto {
  import opened Sequencias

  /** The characters `\s` matches and `String.prototype.trim` removes: the
      ECMAScript WhiteSpace and LineTerminator code points. */
  predicate EhEspaco(c: char)
  {
    || c == ' ' || c == '\t' || c == '\n' || c == '\r' || c == '\U{B}' || c == '\U{C}'
    || c == '\U{A0}' || c == '\U{1680}' || ('\U{2000}' <= c <= '\U{200A}')
    || c == '\U{2028}' || c == '\U{2029}' || c == '\U{202F}' || c == '\U{205F}'
    || c == '\U{3000}' || c == '\U{FEFF}'
  }

  /** `\d`: only the ASCII digits. */
  predicate EhDigito(c: char)
  {
    '0' <= c <= '9'
  }

  /** Leading white space removed: `s` minus its longest all-white-space prefix. */
  function AparaInicio(s: string): (r: string)
    ensures |r| <= |s| && r == s[|s| - |r|..]
    ensures forall k :: 0 <= k < |s| - |r| ==> EhEspaco(s[k])
    ensures r == [] || !EhEspaco(r[0])
  {
    if s != [] && EhEspaco(s[0]) then AparaInicio(s[1..]) else s
  }

  /** Trailing white space removed: `s` minus its longest all-white-space suffix. */
  function AparaFim(s: string): (r: string)
    ensures |r| <= |s| && r == s[..|r|]
    ensures forall k :: |r| <= k < |s| ==> EhEspaco(s[k])
    ensures r == [] || !EhEspaco(r[|r| - 1])
  {
    if s != [] && EhEspaco(s[|s| - 1]) then AparaFim(s[..|s| - 1]) else s
  }

  /** `s.trim()`: a piece of `s` that neither starts nor ends with white space. */
  function Aparar(s: string): (r: string)
    ensures |r| <= |s|
    ensures r == [] || (!EhEspaco(r[0]) && !EhEspaco(r[|r| - 1]))
  {
    AparaFim(AparaInicio(s))
  }

  /** `s.trim() === ''` holds exactly when every character of `s` is white space. */
  lemma ApararVazioSse(s: string)
    ensures Aparar(s) == "" <==> forall k :: 0 <= k < |s| ==> EhEspaco(s[k])
  {
    var i := AparaInicio(s);
    assert i == [] || EhEspaco(i[0]) || Aparar(s) != "";
  }

  lemma ApararDaVazia()
    ensures Aparar("") == ""
  {
  }

  /** `s.trim() !== ''` */
  predicate Preenchido(s: string)
  {
    Aparar(s) != ""
  }

  /** `xs.filter(x => x.trim() !== '')` */
  function NaoVazios(xs: seq<string>): (r: seq<string>)
    ensures |r| <= |xs| && forall k :: 0 <= k < |r| ==> Preenchido(r[k])
  {
    Filtro(Preenchido, xs)
  }

  /** `s.replace(/\D/g, '')` */
  function Digitos(s: string): (r: string)
    ensures |r| <= |s| && forall k :: 0 <= k < |r| ==> EhDigito(r[k])
  {
    Filtro(EhDigito, s)
  }

  lemma DigitosConcat(a: string, b: string)
    ensures Digitos(a + b) == Digitos(a) + Digitos(b)
    decreases |b|
  {
    if b != [] {
      var b' := b[..|b| - 1];
      assert (a + b)[..|a + b| - 1] == a + b';
      DigitosConcat(a, b');
    } else {
      assert a + b == a;
    }
  }

  predicate SoDigitos(s: string)
  {
    forall k :: 0 <= k < |s| ==> EhDigito(s[k])
  }

  lemma DigitosDeDigitos(s: string)
    requires SoDigitos(s)
    ensures Digitos(s) == s
  {
    FiltroTodos(EhDigito, s);
  }

  lemma DigitosSemDigitos(s: string)
    requires forall k :: 0 <= k < |s| ==> !EhDigito(s[k])
    ensures Digitos(s) == ""
  {
    FiltroVazioSse(EhDigito, s);
  }

  /** `toLowerCase` on one character, ASCII letters only. */
  function MinusculaChar(c: char): char
  {
    if 'A' <= c <= 'Z' then (c as int + 32) as char else c
  }

  /** `s.toLowerCase()`, ASCII letters only. */
  function Minusculas(s: string): (r: string)
    ensures |r| == |s|
    ensures forall k :: 0 <= k < |r| ==> !('A' <= r[k] <= 'Z')
    ensures forall k :: 0 <= k < |s| ==> r[k] == s[k] || ('A' <= s[k] <= 'Z' && r[k] as int == s[k] as int + 32)
  {
    seq(|s|, k requires 0 <= k < |s| => MinusculaChar(s[k]))
  }

  lemma MinusculasIdempotente(s: string)
    ensures Minusculas(Minusculas(s)) == Minusculas(s)
  {
  }

  /** `t` occurs in `s` starting at index `i`. */
  predicate OcorreEm(s: string, t: string, i: int)
  {
    0 <= i <= |s| - |t| && t == s[i..i + |t|]
  }

  /** `s.includes(t)` */
  predicate Contem(s: string, t: string)
  {
    exists i | 0 <= i <= |s| - |t| :: OcorreEm(s, t, i)
  }

  lemma ContemVazio(s: string)
    ensures Contem(s, "")
  {
    assert OcorreEm(s, "", 0);
  }

  /** A total preorder on names standing for `a.localeCompare(b) <= 0`: the
      lexicographic order of the lower-cased code points. */
  predicate LexicoMenorIgual(a: string, b: string)
  {
    a == [] || (b != [] && (a[0] < b[0] || (a[0] == b[0] && LexicoMenorIgual(a[1..], b[1..]))))
  }

  predicate NomeAntes(a: string, b: string)
  {
    LexicoMenorIgual(Minusculas(a), Minusculas(b))
  }

  lemma {:induction false} LexicoTotal(a: string, b: string)
    ensures LexicoMenorIgual(a, b) || LexicoMenorIgual(b, a)
  {
    if a != [] && b != [] && a[0] == b[0] {
      LexicoTotal(a[1..], b[1..]);
    }
  }

  lemma {:induction false} LexicoTransitivo(a: string, b: string, c: string)
    requires LexicoMenorIgual(a, b) && LexicoMenorIgual(b, c)
    ensures LexicoMenorIgual(a, c)
  {
    if a != [] && b != [] && c != [] && a[0] == b[0] == c[0] {
      LexicoTransitivo(a[1..], b[1..], c[1..]);
    }
  }

  lemma {:induction false} LexicoReflexivo(a: string)
    ensures LexicoMenorIgual(a, a)
  {
    if a != [] {
      LexicoReflexivo(a[1..]);
    }
  }

  /** The name order is a total preorder: reflexive, transitive and total. */
  lemma NomeAntesPreordemTotal(a: string, b: string, c: string)
    ensures NomeAntes(a, a)
    ensures NomeAntes(a, b) || NomeAntes(b, a)
    ensures NomeAntes(a, b) && NomeAntes(b, c) ==> NomeAntes(a, c)
  {
    LexicoReflexivo(Minusculas(a));
    LexicoTotal(Minusculas(a), Minusculas(b));
    if NomeAntes(a, b) && NomeAntes(b, c) {
      LexicoTransitivo(Minusculas(a), Minusculas(b), Minusculas(c));
    }
  }
}
