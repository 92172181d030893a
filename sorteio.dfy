/**
 * The random draws of `dados_simulados/gerador.py` taken as explicit input streams.
 *
 * The source reseeds numpy's generator and Python's `random` at each call (lines 56-57);
 * here the two streams are parameters, so every result is a function of them.
 * `normal(k)` is the k-th standard-normal value numpy would return, and
 * `uniforme(k)` is the k-th value of Python's stream, in [0, 1). A call to
 * `random.random()` or to `random.choice` consumes one entry of `uniforme`.
 */
module Sorteio {
  import opened Aritmetica

  datatype Sorteios = Sorteios(normal: nat -> real, uniforme: nat -> real)

  /** Python's `random.random()` never leaves [0, 1). */
  ghost predicate Valido(s: Sorteios)
  {
    forall k: nat :: 0.0 <= s.uniforme(k) < 1.0
  }

  /**
   * The raw draw `np.random.normal(media, desvio)` for the standard-normal value `z`:
   * with a positive deviation it lies on the side of the mean that `z` lies on of zero.
   */
  function Normal(media: real, desvio: real, z: real): (r: real)
    ensures desvio > 0.0 ==> (r >= media <==> z >= 0.0)
    ensures desvio > 0.0 ==> (r == media <==> z == 0.0)
  {
    if desvio > 0.0 then
      MultiplicarMonotono(0.0, z, desvio);
      MultiplicarMonotono(z, 0.0, desvio);
      media + desvio * z
    else
      media + desvio * z
  }

  /** `_normal_truncada`: the draw, floored at `minimo` (gerador.py:40-43). */
  function NormalTruncada(media: real, desvio: real, minimo: real, z: real): (r: real)
    ensures r >= minimo
    ensures Normal(media, desvio, z) >= minimo ==> r == Normal(media, desvio, z)
    ensures r == minimo || r == Normal(media, desvio, z)
  {
    var val := Normal(media, desvio, z);
    if val > minimo then val else minimo
  }

  /** The index `random.choice` takes among `n` options for the draw `u`. */
  function Indice(u: real, n: nat): (k: nat)
    requires 0.0 <= u < 1.0 && n > 0
    ensures k < n
    ensures k as real <= u * n as real < k as real + 1.0
  {
    MultiplicarMonotono(0.0, u, n as real);
    MultiplicarMonotono(u, 1.0, n as real);
    (u * n as real).Floor
  }

  /** `random.choice(opcoes)` for the draw `u`. */
  function Escolher<T>(opcoes: seq<T>, u: real): (r: T)
    requires |opcoes| > 0 && 0.0 <= u < 1.0
    ensures r in opcoes
  {
    opcoes[Indice(u, |opcoes|)]
  }

  /** Every option is chosen for some draw: option `k` of `n` for the draw k/n. */
  lemma {:induction false} EscolherAlcancaTodas<T>(opcoes: seq<T>, k: nat)
    requires k < |opcoes|
    ensures 0.0 <= k as real / |opcoes| as real < 1.0
    ensures Escolher(opcoes, k as real / |opcoes| as real) == opcoes[k]
  {
    var n := |opcoes| as real;
    var u := k as real / n;
    assert u * n == k as real;
    assert Indice(u, |opcoes|) == k;
  }
}
