/**
 * `PerfilPaciente` of `dados_simulados/gerador.py` (lines 27-38) and the meal schedule the
 * generator derives from it (line 63).
 *
 * Instants are `real` minutes counted from an epoch that falls on a midnight; naive
 * datetimes have no time zone, so every day is 1440 minutes long.
 */
module Perfil {
  import opened Resultados

  const MINUTOS_POR_DIA: int := 1440

  datatype PerfilPaciente = PerfilPaciente(
    nome: string,
    limiteTempoPostura: int,                // minutes
    probFalhaReposicao: real,
    horariosRefeicao: Option<seq<real>>,    // instants, or None
    duracaoRefeicao: int                    // minutes
  )

  /** The dataclass defaults. */
  const PERFIL_PADRAO: PerfilPaciente := PerfilPaciente("Paciente", 120, 0.7, None, 30)

  /**
   * The default profile allows two hours in one posture, fails to reposition with
   * probability 0.7, lasts 30 minutes per meal and takes the default meal times.
   */
  lemma PerfilPadrao(inicio: real)
    ensures PERFIL_PADRAO.limiteTempoPostura == 2 * 60
    ensures PERFIL_PADRAO.probFalhaReposicao == 0.7
    ensures PERFIL_PADRAO.duracaoRefeicao == 30
    ensures RefeicoesDaSessao(PERFIL_PADRAO, inicio) == HorariosRefeicaoPadrao(inicio)
  {
  }

  /** The number of the day that holds the instant `t`. */
  function Dia(t: real): (k: int)
    ensures (k * MINUTOS_POR_DIA) as real <= t < ((k + 1) * MINUTOS_POR_DIA) as real
  {
    (t / MINUTOS_POR_DIA as real).Floor
  }

  /** Minutes since midnight of the instant `t`. */
  function HoraDoDia(t: real): (m: real)
    ensures 0.0 <= m < MINUTOS_POR_DIA as real
  {
    t - (Dia(t) * MINUTOS_POR_DIA) as real
  }

  /** A day number is fixed by the bounds of its day. */
  lemma DiaUnico(t: real, k: int)
    requires (k * MINUTOS_POR_DIA) as real <= t < ((k + 1) * MINUTOS_POR_DIA) as real
    ensures Dia(t) == k
  {
  }

  /**
   * `horarios_refeicao_padrao`: anchored at 06:00 of `inicio`'s day, the meals fall
   * 6, 12 and 18 hours later, i.e. at 12:00, at 18:00 and at midnight ending that day.
   */
  function HorariosRefeicaoPadrao(inicio: real): (r: seq<real>)
    ensures |r| == 3
    ensures forall i :: 0 <= i < 3 ==>
      r[i] == ((Dia(inicio) * MINUTOS_POR_DIA) + 720 + 360 * i) as real
  {
    var base := (Dia(inicio) * MINUTOS_POR_DIA + 6 * 60) as real;
    [base + (6 * 60) as real, base + (12 * 60) as real, base + (18 * 60) as real]
  }

  /** The default meals are at noon and 18:00 of the start day and at midnight of the next. */
  lemma HorasDasRefeicoesPadrao(inicio: real)
    ensures var r := HorariosRefeicaoPadrao(inicio);
      && Dia(r[0]) == Dia(inicio) && HoraDoDia(r[0]) == 720.0
      && Dia(r[1]) == Dia(inicio) && HoraDoDia(r[1]) == 1080.0
      && Dia(r[2]) == Dia(inicio) + 1 && HoraDoDia(r[2]) == 0.0
  {
    var r := HorariosRefeicaoPadrao(inicio);
    var d := Dia(inicio);
    DiaUnico(r[0], d);
    DiaUnico(r[1], d);
    DiaUnico(r[2], d + 1);
  }

  /**
   * `perfil.horarios_refeicao or perfil.horarios_refeicao_padrao(inicio)`: the profile's
   * list when it is present and not empty, the three defaults otherwise.
   */
  function RefeicoesDaSessao(perfil: PerfilPaciente, inicio: real): (r: seq<real>)
    ensures perfil.horariosRefeicao.Some? && perfil.horariosRefeicao.value != [] ==>
      r == perfil.horariosRefeicao.value
    ensures perfil.horariosRefeicao.None? || perfil.horariosRefeicao.value == [] ==>
      r == HorariosRefeicaoPadrao(inicio)
    ensures r != []
  {
    match perfil.horariosRefeicao
    case Some(hs) => if hs != [] then hs else HorariosRefeicaoPadrao(inicio)
    case None => HorariosRefeicaoPadrao(inicio)
  }
}
