/**
 * The four body postures, the transition table and the duration parameters of
 * `dados_simulados/gerador.py`, lines 9-25 and 45-47.
 */
module Posturas {

  datatype Postura = Supino | LateralDireito | LateralEsquerdo | Prono

  /** `POSTURAS`, in the source's order. */
  const POSTURAS: seq<Postura> := [Supino, LateralDireito, LateralEsquerdo, Prono]

  /** `TRANSICOES_VALIDAS`: the postures that may follow each posture. */
  const TRANSICOES_VALIDAS: map<Postura, seq<Postura>> := map[
    Supino := [LateralDireito, LateralEsquerdo],
    LateralDireito := [Supino, Prono],
    LateralEsquerdo := [Supino, Prono],
    Prono := [LateralDireito, LateralEsquerdo]
  ]

  /** `TEMPOS_POSTURA`: mean and standard deviation, in minutes, of each posture's duration. */
  const TEMPOS_POSTURA: map<Postura, (real, real)> := map[
    Supino := (90.0, 30.0),
    LateralDireito := (120.0, 40.0),
    LateralEsquerdo := (120.0, 40.0),
    Prono := (45.0, 20.0)
  ]

  /** The list comprehension `[p for p in POSTURAS if p != atual]` over any list of postures. */
  function SemPostura(ps: seq<Postura>, atual: Postura): (r: seq<Postura>)
    ensures forall q :: q in r <==> q in ps && q != atual
  {
    if ps == [] then []
    else if ps[0] != atual then [ps[0]] + SemPostura(ps[1..], atual)
    else SemPostura(ps[1..], atual)
  }

  /**
   * The candidates of `_escolher_proxima_postura`: the table entry, or every other
   * posture when the table has none.
   */
  function Opcoes(atual: Postura): (r: seq<Postura>)
    ensures |r| > 0
    ensures forall q :: q in r ==> q in POSTURAS && q != atual
  {
    if atual in TRANSICOES_VALIDAS then TRANSICOES_VALIDAS[atual]
    else SemPostura(POSTURAS, atual)
  }

  /** `TEMPOS_POSTURA.get(atual, (90, 30))`. */
  function Parametros(atual: Postura): (r: (real, real))
    ensures r.0 > 0.0 && r.1 > 0.0
  {
    if atual in TEMPOS_POSTURA then TEMPOS_POSTURA[atual] else (90.0, 30.0)
  }

  /** Removing a posture from `POSTURAS` keeps the other three in the source's order. */
  lemma SemPosturaPreservaOrdem()
    ensures SemPostura(POSTURAS, Supino) == [LateralDireito, LateralEsquerdo, Prono]
    ensures SemPostura(POSTURAS, LateralDireito) == [Supino, LateralEsquerdo, Prono]
    ensures SemPostura(POSTURAS, LateralEsquerdo) == [Supino, LateralDireito, Prono]
    ensures SemPostura(POSTURAS, Prono) == [Supino, LateralDireito, LateralEsquerdo]
  {
  }

  /** Every posture has an entry in both tables, so neither fallback is ever taken. */
  lemma TabelasCompletas(p: Postura)
    ensures p in TRANSICOES_VALIDAS && Opcoes(p) == TRANSICOES_VALIDAS[p]
    ensures p in TEMPOS_POSTURA && Parametros(p) == TEMPOS_POSTURA[p]
  {
  }

  /** Supine is never offered prone: the table itself already forbids the direct jump. */
  lemma SupinoNaoOfereceProno()
    ensures Prono !in Opcoes(Supino)
  {
  }

  /** The table is symmetric: `q` may follow `p` exactly when `p` may follow `q`. */
  lemma TransicoesSimetricas(p: Postura, q: Postura)
    ensures q in Opcoes(p) <==> p in Opcoes(q)
  {
  }
}
