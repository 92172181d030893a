/**
 * The two entry points of `dados_simulados/gerador.py`: `gerar_sessao_simulada` (lines
 * 135-157), the posture series on a regular grid, and `gerar_eventos_sessao` (lines
 * 159-187), the raw events with their start and end columns.
 */
module Sessao {
  import opened Resultados
  import opened Posturas
  import opened Perfil
  import opened Sorteio
  import opened Eventos
  import opened Grade
  import opened PropriedadesEventos

  /** One row of `gerar_eventos_sessao`: the event with its `inicio` and `fim` columns. */
  datatype LinhaEvento = LinhaEvento(evento: Evento, inicio: real, fim: real)

  /**
   * The session window: it starts at `inicio` when given, otherwise it ends at the current
   * minute (the clock reading `relogio` with seconds dropped); it is `horas` hours long.
   */
  function JanelaDaSessao(horas: int, inicio: Option<real>, relogio: real): (j: (real, real))
    ensures j.1 - j.0 == (horas * 60) as real
    ensures inicio.Some? ==> j.0 == inicio.value
    ensures inicio.None? ==> j.1 == relogio.Floor as real && j.1 <= relogio < j.1 + 1.0
  {
    var t0 := if inicio.Some? then inicio.value else relogio.Floor as real - (horas * 60) as real;
    (t0, t0 + (horas * 60) as real)
  }

  /** The profile in use: the one given, or the default profile. */
  function PerfilEmUso(perfil: Option<PerfilPaciente>): (r: PerfilPaciente)
    ensures perfil.Some? ==> r == perfil.value
    ensures perfil.None? ==> r == PERFIL_PADRAO
  {
    if perfil.Some? then perfil.value else PERFIL_PADRAO
  }

  /** What `gerar_sessao_simulada` returns: the session's events expanded onto the grid. */
  function SessaoSimulada(horas: int, passo: int, inicio: Option<real>, relogio: real,
                          perfil: Option<PerfilPaciente>, sorteios: Sorteios): (r: Result<seq<Amostra>, Erro>)
    requires Valido(sorteios)
    ensures passo <= 0 ==> r == Err(PassoInvalido)
    ensures r.Ok? ==> |r.value| == NumeroDePontos(JanelaDaSessao(horas, inicio, relogio).0,
                                                   JanelaDaSessao(horas, inicio, relogio).1, passo)
  {
    var j := JanelaDaSessao(horas, inicio, relogio);
    Expandida(EventosGerados(j.0, j.1, PerfilEmUso(perfil), sorteios), passo, j.0, j.1)
  }

  /**
   * A step that is not positive is refused; otherwise the series exists exactly when the
   * session lasts a positive number of hours (a session of no hours has no events and no
   * columns to expand).
   */
  lemma {:induction false} SessaoExiste(horas: int, passo: int, inicio: Option<real>, relogio: real,
                     perfil: Option<PerfilPaciente>, sorteios: Sorteios)
    requires Valido(sorteios)
    ensures var r := SessaoSimulada(horas, passo, inicio, relogio, perfil, sorteios);
      && (passo <= 0 ==> r == Err(PassoInvalido))
      && (passo > 0 ==> (r.Ok? <==> horas > 0))
      && (passo > 0 && horas <= 0 ==> r == Err(SemEventos))
  {
    var j := JanelaDaSessao(horas, inicio, relogio);
    TerminoDaSessao(j.0, j.1, PerfilEmUso(perfil), sorteios);
  }

  /**
   * A session of positive length on a positive step has `horas * 60 / passo + 1` samples
   * `passo` minutes apart, from the start of the window to at most its end.
   */
  lemma {:induction false} FormaDaSessao(horas: int, passo: int, inicio: Option<real>, relogio: real,
                      perfil: Option<PerfilPaciente>, sorteios: Sorteios)
    requires Valido(sorteios) && horas > 0 && passo > 0
    ensures var r := SessaoSimulada(horas, passo, inicio, relogio, perfil, sorteios);
      var j := JanelaDaSessao(horas, inicio, relogio);
      && r.Ok?
      && |r.value| == (horas * 60) / passo + 1
      && r.value[0].timestamp == j.0
      && r.value[|r.value| - 1].timestamp <= j.1 < r.value[|r.value| - 1].timestamp + passo as real
      && forall k :: 0 <= k < |r.value| - 1 ==>
           r.value[k + 1].timestamp - r.value[k].timestamp == passo as real
  {
    var j := JanelaDaSessao(horas, inicio, relogio);
    var p := PerfilEmUso(perfil);
    var ev := EventosGerados(j.0, j.1, p, sorteios);
    assert SessaoSimulada(horas, passo, inicio, relogio, perfil, sorteios) == Expandida(ev, passo, j.0, j.1);
    ExpansaoDeHoras(ev, passo, j.0, j.1, horas);
  }

  /**
   * When meals last at least a minute the generator already emits events in order of
   * start, so sorting them before the expansion changes nothing.
   */
  lemma {:induction false} OrdenacaoSemEfeito(inicio: real, fim: real, perfil: PerfilPaciente, s: Sorteios)
    requires Valido(s) && perfil.duracaoRefeicao >= 1
    ensures OrdenarPorInicio(EventosGerados(inicio, fim, perfil, s)) == EventosGerados(inicio, fim, perfil, s)
  {
    var ev := EventosGerados(inicio, fim, perfil, s);
    forall i, j | 0 <= i < j < |ev|
      ensures ev[i].timestamp < ev[j].timestamp
    {
      InicioCrescente(inicio, fim, perfil, s, i, j);
    }
    OrdenarEstritamenteCrescente(ev);
  }

  /**
   * When meals last at least a minute, the first sample of a session is supine: the first
   * event is supine and still running at the window's start.
   */
  lemma {:induction false} PrimeiraAmostraSupina(horas: int, passo: int, inicio: Option<real>, relogio: real,
                              perfil: Option<PerfilPaciente>, sorteios: Sorteios)
    requires Valido(sorteios) && horas > 0 && passo > 0
    requires PerfilEmUso(perfil).duracaoRefeicao >= 1
    ensures var r := SessaoSimulada(horas, passo, inicio, relogio, perfil, sorteios);
      r.Ok? && r.value[0].postura == Supino
  {
    var j := JanelaDaSessao(horas, inicio, relogio);
    var p := PerfilEmUso(perfil);
    var ev := EventosGerados(j.0, j.1, p, sorteios);
    SessaoComoExpansao(horas, passo, inicio, relogio, perfil, sorteios);
    PrimeiroEventoSupino(j.0, j.1, p, sorteios);
    OrdenacaoSemEfeito(j.0, j.1, p, sorteios);
    PrimeiraAmostra(ev, passo, j.0, j.1);
  }

  /** The first event is supine and is the one the cursor finds for the start of the window. */
  lemma {:induction false} PrimeiroEventoSupino(inicio: real, fim: real, p: PerfilPaciente, sorteios: Sorteios)
    requires Valido(sorteios) && inicio < fim && p.duracaoRefeicao >= 1
    ensures var ev := EventosGerados(inicio, fim, p, sorteios);
      ev != [] && Cobrindo(ev, inicio) == 0 && ev[0].postura == Supino
  {
    var ev := EventosGerados(inicio, fim, p, sorteios);
    SupinoNoInicioEAposRefeicao(inicio, fim, p, sorteios, 0);
    if ev[0].origem == Refeicao {
      BlocoDeRefeicao(inicio, fim, p, sorteios, 0);
    } else {
      BlocoNormalContiguo(inicio, fim, p, sorteios, 0);
      DuracaoDoBlocoNormal(inicio, fim, p, sorteios, 0);
    }
    CobrindoUnico(ev, inicio, 0);
  }

  /**
   * In a generated session, the event the cursor finds for an instant from the window's
   * start up to the end of the last event holds that instant: it starts at or before it
   * and ends after it. Meal blocks may start before the previous block ends, so the events
   * are not a tiling and `CobrindoNumaTesselacao` does not apply.
   */
  lemma {:induction false} CobrindoNosEventosGerados(inicio: real, fim: real, perfil: PerfilPaciente, s: Sorteios, t: real)
    requires Valido(s) && inicio < fim
    requires var ev := EventosGerados(inicio, fim, perfil, s);
      inicio <= t < ev[|ev| - 1].Fim()
    ensures var ev := EventosGerados(inicio, fim, perfil, s);
      var j := Cobrindo(ev, t);
      ev[j].timestamp <= t < ev[j].Fim()
  {
    var ev := EventosGerados(inicio, fim, perfil, s);
    var j := Cobrindo(ev, t);
    ExtremosDosEventos(inicio, fim, perfil, s);
    if j > 0 {
      assert ev[j - 1].Fim() <= t;
      if ev[j].origem == Refeicao {
        BlocoDeRefeicao(inicio, fim, perfil, s, j);
      } else {
        BlocoNormalContiguo(inicio, fim, perfil, s, j);
      }
    }
  }

  /**
   * When meals last at least a minute, every sample of a session whose instant is before
   * the end of the last event takes the posture of an event that holds that instant.
   */
  lemma {:induction false} AmostraCoberta(horas: int, passo: int, inicio: Option<real>, relogio: real,
                       perfil: Option<PerfilPaciente>, sorteios: Sorteios, k: nat)
    requires Valido(sorteios) && horas > 0 && passo > 0
    requires PerfilEmUso(perfil).duracaoRefeicao >= 1
    requires var r := SessaoSimulada(horas, passo, inicio, relogio, perfil, sorteios);
      r.Ok? && k < |r.value|
    ensures var r := SessaoSimulada(horas, passo, inicio, relogio, perfil, sorteios);
      var w := JanelaDaSessao(horas, inicio, relogio);
      var ev := EventosGerados(w.0, w.1, PerfilEmUso(perfil), sorteios);
      var t := r.value[k].timestamp;
      && ev != []
      && (t < ev[|ev| - 1].Fim() ==>
            var i := Cobrindo(ev, t);
            ev[i].timestamp <= t < ev[i].Fim() && ev[i].postura == r.value[k].postura)
  {
    var w := JanelaDaSessao(horas, inicio, relogio);
    SessaoComoExpansao(horas, passo, inicio, relogio, perfil, sorteios);
    AmostraDosEventos(w.0, w.1, PerfilEmUso(perfil), sorteios, passo, k);
  }

  /** The series is the expansion of the window's events over the window, which is not empty. */
  lemma {:induction false} SessaoComoExpansao(horas: int, passo: int, inicio: Option<real>, relogio: real,
                           perfil: Option<PerfilPaciente>, sorteios: Sorteios)
    requires Valido(sorteios) && horas > 0
    ensures var w := JanelaDaSessao(horas, inicio, relogio);
      && w.0 < w.1
      && SessaoSimulada(horas, passo, inicio, relogio, perfil, sorteios)
         == Expandida(EventosGerados(w.0, w.1, PerfilEmUso(perfil), sorteios), passo, w.0, w.1)
  {
  }

  /** `AmostraCoberta` for an explicit window `[inicio, fim)`. */
  lemma {:induction false} AmostraDosEventos(inicio: real, fim: real, p: PerfilPaciente, sorteios: Sorteios, passo: int, k: nat)
    requires Valido(sorteios) && inicio < fim && passo > 0 && p.duracaoRefeicao >= 1
    requires k < |Expandida(EventosGerados(inicio, fim, p, sorteios), passo, inicio, fim).value|
    ensures var ev := EventosGerados(inicio, fim, p, sorteios);
      var a := Expandida(ev, passo, inicio, fim).value[k];
      && ev != []
      && (a.timestamp < ev[|ev| - 1].Fim() ==>
            var i := Cobrindo(ev, a.timestamp);
            ev[i].timestamp <= a.timestamp < ev[i].Fim() && ev[i].postura == a.postura)
  {
    var ev := EventosGerados(inicio, fim, p, sorteios);
    var a := Expandida(ev, passo, inicio, fim).value[k];
    OrdenacaoSemEfeito(inicio, fim, p, sorteios);
    AmostraDaGrade(ev, passo, inicio, fim, k);
    if a.timestamp < ev[|ev| - 1].Fim() {
      CobrindoNosEventosGerados(inicio, fim, p, sorteios, a.timestamp);
    }
  }


  /**
   * `gerar_sessao_simulada`: generate the events of the window, then expand them onto the
   * grid of step `passo`.
   */
  method GerarSessaoSimulada(horas: int, passo: int, inicio: Option<real>, relogio: real,
                             perfil: Option<PerfilPaciente>, sorteios: Sorteios)
    returns (r: Result<seq<Amostra>, Erro>)
    requires Valido(sorteios)
    ensures r == SessaoSimulada(horas, passo, inicio, relogio, perfil, sorteios)
  {
    var janela := JanelaDaSessao(horas, inicio, relogio);
    var p := PerfilEmUso(perfil);
    var eventos := GerarEventos(janela.0, janela.1, p, sorteios);
    r := ExpandirParaGrade(eventos, passo, janela.0, janela.1);
  }

  /**
   * `gerar_eventos_sessao`: the events of the window with their start and end columns.
   * Adding the columns fails on a session with no events (no hours), which has no
   * `timestamp` column; otherwise the first row starts at the window's start (or, when it
   * is a meal, less than a minute before it) and the last one reaches the window's end.
   */
  method GerarEventosSessao(horas: int, inicio: Option<real>, relogio: real,
                            perfil: Option<PerfilPaciente>, sorteios: Sorteios)
    returns (r: Result<seq<LinhaEvento>, Erro>)
    requires Valido(sorteios)
    ensures var j := JanelaDaSessao(horas, inicio, relogio);
      var ev := EventosGerados(j.0, j.1, PerfilEmUso(perfil), sorteios);
      && (r.Err? <==> horas <= 0)
      && (r.Err? ==> r.error == SemEventos)
      && (r.Ok? ==>
            && |r.value| == |ev| > 0
            && r.value[0].inicio <= j.0 < r.value[0].inicio + 1.0
            && r.value[|r.value| - 1].fim >= j.1
            && r.value == ComColunas(ev))
  {
    var janela := JanelaDaSessao(horas, inicio, relogio);
    var p := PerfilEmUso(perfil);
    var eventos := GerarEventos(janela.0, janela.1, p, sorteios);
    ExtremosDosEventos(janela.0, janela.1, p, sorteios);
    if eventos == [] {
      return Err(SemEventos);
    }
    r := Ok(ComColunas(eventos));
  }

  /**
   * A session window of positive length has events: the first starts at the window's
   * start, or less than a minute before it when it is a meal, and the last one reaches
   * the window's end; an empty window has none.
   */
  lemma {:induction false} ExtremosDosEventos(inicio: real, fim: real, perfil: PerfilPaciente, s: Sorteios)
    requires Valido(s)
    ensures var ev := EventosGerados(inicio, fim, perfil, s);
      && (ev == [] <==> inicio >= fim)
      && (ev != [] ==>
            && ev[0].timestamp <= inicio < ev[0].timestamp + 1.0
            && ev[|ev| - 1].Fim() >= fim)
  {
    var ev := EventosGerados(inicio, fim, perfil, s);
    TerminoDaSessao(inicio, fim, perfil, s);
    if ev != [] {
      if ev[0].origem == Refeicao {
        BlocoDeRefeicao(inicio, fim, perfil, s, 0);
      } else {
        BlocoNormalContiguo(inicio, fim, perfil, s, 0);
      }
    }
  }

  /** The columns `inicio` (the event's start) and `fim` (start plus duration) added to each event. */
  function ComColunas(ev: seq<Evento>): (linhas: seq<LinhaEvento>)
    ensures |linhas| == |ev|
    ensures forall i :: 0 <= i < |ev| ==>
      linhas[i].evento == ev[i] && linhas[i].inicio == ev[i].timestamp
      && linhas[i].fim == ev[i].timestamp + ev[i].duracaoMin
  {
    seq(|ev|, i requires 0 <= i < |ev| => LinhaEvento(ev[i], ev[i].timestamp, ev[i].Fim()))
  }
}
