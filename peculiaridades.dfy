/**
 * Concrete runs of `_gerar_eventos` (dados_simulados/gerador.py:49-111) showing where the
 * events differ from an exact tiling of the session: a failed block cut below the limit,
 * a last block that overshoots `fim`, a meal skipped because the cursor jumped over its
 * window, and a meal block that starts before the cursor and ends after `fim`.
 */
module Peculiaridades {
  import opened Resultados
  import opened Posturas
  import opened Sorteio
  import opened Perfil
  import opened Eventos

  /** Standard-normal draws all equal to `z`, uniform draws all equal to `u`. */
  function Constantes(z: real, u: real): Sorteios
  {
    Sorteios(k => z, k => u)
  }

  /**
   * Supine draws 90 + 30 * 10 = 390 minutes, over the 120-minute limit; the uniform 0.0 is
   * below 0.7, so the block fails and grows to 780 minutes; the session has 10 minutes, so
   * the block is cut to 10 minutes and still carries `falha`.
   */
  lemma FalhaEmBlocoCortado()
    ensures Valido(Constantes(10.0, 0.0))
    ensures EventosGerados(0.0, 10.0, PERFIL_PADRAO, Constantes(10.0, 0.0))
      == [Evento(0.0, Supino, 10.0, Normal, true)]
    ensures 10.0 <= PERFIL_PADRAO.limiteTempoPostura as real
  {
    var s := Constantes(10.0, 0.0);
    var c := ContextoDe(0.0, 10.0, PERFIL_PADRAO, s);
    var st0 := EstadoInicial(c);
    assert c.refeicoes == [720.0, 1080.0, 1440.0];
    assert RefeicaoDevida(c.refeicoes, {}, 0.0) == None;
    var st1 := Passo(c, st0);
    assert st1.eventos == [Evento(0.0, Supino, 10.0, Normal, true)] && st1.ts == 10.0;
    ExecutarPasso(c, st0);
  }

  /** With half a minute of session, the only block lasts a minute and ends after `fim`. */
  lemma UltimoBlocoUltrapassaFim()
    ensures Valido(Constantes(0.0, 0.0))
    ensures EventosGerados(0.0, 0.5, PERFIL_PADRAO, Constantes(0.0, 0.0))
      == [Evento(0.0, Supino, 1.0, Normal, false)]
  {
    var s := Constantes(0.0, 0.0);
    var c := ContextoDe(0.0, 0.5, PERFIL_PADRAO, s);
    var st0 := EstadoInicial(c);
    assert c.refeicoes == [720.0, 1080.0, 1440.0];
    assert RefeicaoDevida(c.refeicoes, {}, 0.0) == None;
    var st1 := Passo(c, st0);
    assert st1.eventos == [Evento(0.0, Supino, 1.0, Normal, false)] && st1.ts == 1.0;
    ExecutarPasso(c, st0);
  }

  /** A profile with meals at the given instants. */
  function ComRefeicoes(hs: seq<real>): PerfilPaciente
  {
    PERFIL_PADRAO.(horariosRefeicao := Some(hs))
  }

  /**
   * With all draws zero, a session that starts at 0 with no meal due opens with a 90-minute
   * supine block and then chooses the right lateral posture.
   */
  lemma PrimeiroBloco(c: Contexto)
    requires c.sorteios == Constantes(0.0, 0.0) && c.perfil == ComRefeicoes(c.refeicoes)
    requires c.inicio == 0.0 && c.fim >= 90.0
    requires RefeicaoDevida(c.refeicoes, {}, 0.0) == None
    ensures Valido(c.sorteios)
    ensures Passo(c, EstadoInicial(c))
      == Estado(90.0, LateralDireito, [Evento(0.0, Supino, 90.0, Normal, false)], {}, 1, 1)
  {
    var st0 := EstadoInicial(c);
    assert SortearDuracao(c, Supino, 0, 0) == Bloco(90.0, false, 1, 0);
    assert AjustarAoFim(0.0, 90.0, c.fim) == 90.0;
    assert ProximaPostura(Supino, 0, c.sorteios) == (LateralDireito, 1);
    PassoNormal(c, st0, Bloco(90.0, false, 1, 0), 90.0, LateralDireito, 1);
  }

  /** The session of `RefeicaoPulada`: a meal at minute 100 and `fim` = 200. */
  function SessaoComRefeicaoPulada(): Contexto
  {
    ContextoDe(0.0, 200.0, ComRefeicoes([100.0]), Constantes(0.0, 0.0))
  }

  /**
   * At minute 90 no meal is due; the right-lateral block draws 120 minutes, is cut to the
   * 110 left, and takes the cursor to 200, past the meal's window.
   */
  lemma SegundoBlocoCortado(st1: Estado)
    requires st1 == Estado(90.0, LateralDireito, [Evento(0.0, Supino, 90.0, Normal, false)], {}, 1, 1)
    ensures Valido(SessaoComRefeicaoPulada().sorteios)
    ensures var st2 := Passo(SessaoComRefeicaoPulada(), st1);
      st2.ts == 200.0
      && st2.eventos == [Evento(0.0, Supino, 90.0, Normal, false), Evento(90.0, LateralDireito, 110.0, Normal, false)]
  {
    var c := SessaoComRefeicaoPulada();
    assert c.refeicoes == [100.0];
    assert RefeicaoDevida(c.refeicoes, {}, 90.0) == None;
    assert SortearDuracao(c, LateralDireito, 1, 1) == Bloco(120.0, false, 2, 1);
    assert AjustarAoFim(90.0, 120.0, 200.0) == 110.0;
    var prox := ProximaPostura(LateralDireito, 1, c.sorteios);
    PassoNormal(c, st1, Bloco(120.0, false, 2, 1), 110.0, prox.0, prox.1);
  }

  /**
   * A meal at minute 100 of a 200-minute session is skipped: the cursor goes from 90
   * (end of a 90-minute supine block) to 200 (a right-lateral block cut at `fim`) and is
   * never inside [100, 101).
   */
  lemma RefeicaoPulada()
    ensures Valido(Constantes(0.0, 0.0))
    ensures EventosGerados(0.0, 200.0, ComRefeicoes([100.0]), Constantes(0.0, 0.0))
      == [Evento(0.0, Supino, 90.0, Normal, false), Evento(90.0, LateralDireito, 110.0, Normal, false)]
  {
    var c := SessaoComRefeicaoPulada();
    assert c.refeicoes == [100.0];
    var st0 := EstadoInicial(c);
    var st1 := Estado(90.0, LateralDireito, [Evento(0.0, Supino, 90.0, Normal, false)], {}, 1, 1);
    assert RefeicaoDevida(c.refeicoes, {}, 0.0) == None;
    PrimeiroBloco(c);
    SegundoBlocoCortado(st1);
    ExecutarPasso(c, st0);
    ExecutarPasso(c, st1);
  }

  /** The session of `RefeicaoAntesDoCursor`: a meal at minute 89.5 and `fim` = 100. */
  function SessaoComRefeicaoTardia(): Contexto
  {
    ContextoDe(0.0, 100.0, ComRefeicoes([89.5]), Constantes(0.0, 0.0))
  }

  /** At minute 90 the meal at 89.5 is due: it is emitted at 89.5 and the cursor jumps to 119.5. */
  lemma RefeicaoTardiaAplicada(st1: Estado)
    requires st1 == Estado(90.0, LateralDireito, [Evento(0.0, Supino, 90.0, Normal, false)], {}, 1, 1)
    ensures Valido(SessaoComRefeicaoTardia().sorteios)
    ensures var st2 := Passo(SessaoComRefeicaoTardia(), st1);
      st2.ts == 119.5
      && st2.eventos == [Evento(0.0, Supino, 90.0, Normal, false), Evento(89.5, Supino, 30.0, Refeicao, false)]
  {
    var c := SessaoComRefeicaoTardia();
    assert c.refeicoes == [89.5];
    assert RefeicaoDevida(c.refeicoes, {}, 90.0) == Some(0);
    PassoRefeicao(c, st1, 0);
  }

  /**
   * A meal at minute 89.5 is found by the cursor at 90, so its block starts half a minute
   * before the previous block ends; it is not cut at `fim` = 100 and ends at 119.5.
   */
  lemma RefeicaoAntesDoCursor()
    ensures Valido(Constantes(0.0, 0.0))
    ensures EventosGerados(0.0, 100.0, ComRefeicoes([89.5]), Constantes(0.0, 0.0))
      == [Evento(0.0, Supino, 90.0, Normal, false), Evento(89.5, Supino, 30.0, Refeicao, false)]
  {
    var c := SessaoComRefeicaoTardia();
    assert c.refeicoes == [89.5];
    var st0 := EstadoInicial(c);
    var st1 := Estado(90.0, LateralDireito, [Evento(0.0, Supino, 90.0, Normal, false)], {}, 1, 1);
    assert RefeicaoDevida(c.refeicoes, {}, 0.0) == None;
    PrimeiroBloco(c);
    RefeicaoTardiaAplicada(st1);
    ExecutarPasso(c, st0);
    ExecutarPasso(c, st1);
  }
}
