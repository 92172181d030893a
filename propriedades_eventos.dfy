/**
 * What `_gerar_eventos` (dados_simulados/gerador.py:49-111) guarantees about the events
 * it returns, proved about `Eventos.EventosGerados` through an invariant of its loop.
 */
module PropriedadesEventos {
  import opened Resultados
  import opened Posturas
  import opened Sorteio
  import opened Perfil
  import opened Eventos

  /** The meal times applied by the events `ev`: the starts of its meal blocks. */
  function Aplicadas(ev: seq<Evento>): set<real>
  {
    if ev == [] then {}
    else Aplicadas(ev[..|ev| - 1]) + (if ev[|ev| - 1].origem == Refeicao then {ev[|ev| - 1].timestamp} else {})
  }

  /** A meal time is applied exactly when some meal block starts at it. */
  lemma {:induction false} AplicadasSaoInicios(ev: seq<Evento>, h: real)
    ensures h in Aplicadas(ev) <==>
      exists j :: 0 <= j < |ev| && ev[j].origem == Refeicao && ev[j].timestamp == h
  {
    if ev != [] {
      var n := |ev| - 1;
      AplicadasSaoInicios(ev[..n], h);
      assert forall j :: 0 <= j < n ==> ev[..n][j] == ev[j];
    }
  }

  /** Where the cursor stood before event `i`: the session start or the end of event `i - 1`. */
  function FimAnterior(inicio: real, ev: seq<Evento>, i: nat): real
    requires i <= |ev|
  {
    if i == 0 then inicio else ev[i - 1].Fim()
  }

  /** The postures event `i` may have: supine first and after a meal, the table otherwise. */
  function Sucessores(ev: seq<Evento>, i: nat): seq<Postura>
    requires i <= |ev|
  {
    if i == 0 || ev[i - 1].origem == Refeicao then [Supino] else Opcoes(ev[i - 1].postura)
  }

  /** A normal block cut at the session end: what was left of the session, or one minute. */
  predicate Cortado(c: Contexto, e: Evento)
  {
    e.duracaoMin == Max(1.0, c.fim - e.timestamp)
  }

  /** Lines 70-78: what a meal block emitted as event `i` looks like. */
  predicate RefeicaoOk(c: Contexto, ev: seq<Evento>, i: nat)
    requires i < |ev|
  {
    var e := ev[i];
    var antes := FimAnterior(c.inicio, ev, i);
    && e.postura == Supino
    && e.duracaoMin == c.perfil.duracaoRefeicao as real
    && !e.falha
    && e.timestamp in c.refeicoes
    && e.timestamp !in Aplicadas(ev[..i])
    && e.timestamp <= antes < e.timestamp + 1.0
    && antes < c.fim
  }

  /** Lines 83-109: what a normal block emitted as event `i` looks like. */
  predicate NormalOk(c: Contexto, ev: seq<Evento>, i: nat)
    requires i < |ev|
  {
    var e := ev[i];
    && e.timestamp == FimAnterior(c.inicio, ev, i)
    && e.timestamp < c.fim
    && (forall h :: h in c.refeicoes && h !in Aplicadas(ev[..i]) ==> !(h <= e.timestamp < h + 1.0))
    && ((e.duracaoMin >= 5.0 && e.Fim() <= c.fim) || Cortado(c, e))
    && (e.falha ==> e.duracaoMin > c.perfil.limiteTempoPostura as real + 5.0 || Cortado(c, e))
    && e.postura in Sucessores(ev, i)
  }

  predicate EventoOk(c: Contexto, ev: seq<Evento>, i: nat)
    requires i < |ev|
  {
    if ev[i].origem == Refeicao then RefeicaoOk(c, ev, i) else NormalOk(c, ev, i)
  }

  /** The loop invariant of `_gerar_eventos`. */
  predicate Inv(c: Contexto, st: Estado)
  {
    && st.ts == FimAnterior(c.inicio, st.eventos, |st.eventos|)
    && st.inseridas == Aplicadas(st.eventos)
    && st.atual in Sucessores(st.eventos, |st.eventos|)
    && forall i :: 0 <= i < |st.eventos| ==> EventoOk(c, st.eventos, i)
  }

  /** Appending an event changes nothing about the events before it. */
  lemma EventoOkAposAcrescimo(c: Contexto, ev: seq<Evento>, e: Evento, i: nat)
    requires i < |ev|
    ensures EventoOk(c, ev + [e], i) == EventoOk(c, ev, i)
  {
    assert (ev + [e])[..i] == ev[..i];
  }

  /** The new event of a step is well formed. */
  lemma {:induction false} NovoEventoOk(c: Contexto, st: Estado)
    requires Valido(c.sorteios) && st.ts < c.fim && Inv(c, st)
    ensures EventoOk(c, Passo(c, st).eventos, |st.eventos|)
  {
    var ev := Passo(c, st).eventos;
    var n := |st.eventos|;
    assert ev[..n] == st.eventos;
    assert FimAnterior(c.inicio, ev, n) == st.ts;
    assert Sucessores(ev, n) == Sucessores(st.eventos, n);
    match RefeicaoDevida(c.refeicoes, st.inseridas, st.ts)
    case Some(k) =>
      PassoRefeicao(c, st, k);
      assert RefeicaoOk(c, ev, n);
    case None =>
      var b := SortearDuracao(c, st.atual, st.ni, st.pi);
      var dur := AjustarAoFim(st.ts, b.duracao, c.fim);
      var prox := ProximaPostura(st.atual, b.pi, c.sorteios);
      PassoNormal(c, st, b, dur, prox.0, prox.1);
      forall h | h in c.refeicoes && h !in Aplicadas(st.eventos)
        ensures !(h <= st.ts < h + 1.0)
      {
        var j :| 0 <= j < |c.refeicoes| && c.refeicoes[j] == h;
        assert !Devida(c.refeicoes[j], st.inseridas, st.ts);
      }
      assert NormalOk(c, ev, n);
  }

  /** Every step of the loop keeps the invariant. */
  lemma {:induction false} InvPasso(c: Contexto, st: Estado)
    requires Valido(c.sorteios) && st.ts < c.fim && Inv(c, st)
    ensures Inv(c, Passo(c, st))
  {
    var r := Passo(c, st);
    var n := |st.eventos|;
    var e := r.eventos[n];
    assert r.eventos == st.eventos + [e];
    assert r.eventos[..n] == st.eventos;
    forall i | 0 <= i < |r.eventos|
      ensures EventoOk(c, r.eventos, i)
    {
      if i < n {
        EventoOkAposAcrescimo(c, st.eventos, e, i);
      } else {
        NovoEventoOk(c, st);
      }
    }
    match RefeicaoDevida(c.refeicoes, st.inseridas, st.ts)
    case Some(k) =>
      PassoRefeicao(c, st, k);
    case None =>
      var b := SortearDuracao(c, st.atual, st.ni, st.pi);
      var dur := AjustarAoFim(st.ts, b.duracao, c.fim);
      var prox := ProximaPostura(st.atual, b.pi, c.sorteios);
      PassoNormal(c, st, b, dur, prox.0, prox.1);
  }

  /** Running the loop to its end keeps the invariant. */
  lemma {:induction false} InvExecutar(c: Contexto, st: Estado)
    requires Valido(c.sorteios) && Inv(c, st)
    ensures Inv(c, Executar(c, st))
    decreases |Conjunto(c.refeicoes) - st.inseridas|, Restante(st.ts, c.fim)
  {
    if st.ts < c.fim {
      var st' := Passo(c, st);
      InvPasso(c, st);
      if st'.inseridas == st.inseridas {
        RestanteDecresce(st.ts, st'.ts, c.fim);
      }
      InvExecutar(c, st');
    }
  }

  /** The state the loop ends in satisfies the invariant, with the cursor at or past `fim`. */
  lemma EstadoFinal(inicio: real, fim: real, perfil: PerfilPaciente, s: Sorteios)
    requires Valido(s)
    ensures var c := ContextoDe(inicio, fim, perfil, s);
      var r := Executar(c, EstadoInicial(c));
      Inv(c, r) && r.ts >= fim && r.eventos == EventosGerados(inicio, fim, perfil, s)
  {
    var c := ContextoDe(inicio, fim, perfil, s);
    InvExecutar(c, EstadoInicial(c));
  }

  /** With no time in the session the loop never runs. */
  lemma SessaoVazia(inicio: real, fim: real, perfil: PerfilPaciente, s: Sorteios)
    requires Valido(s) && inicio >= fim
    ensures EventosGerados(inicio, fim, perfil, s) == []
  {
    var c := ContextoDe(inicio, fim, perfil, s);
    assert Executar(c, EstadoInicial(c)) == EstadoInicial(c);
  }

  /** Every event's properties, read off the final state. */
  lemma EventosOk(inicio: real, fim: real, perfil: PerfilPaciente, s: Sorteios, i: nat)
    requires Valido(s) && i < |EventosGerados(inicio, fim, perfil, s)|
    ensures EventoOk(ContextoDe(inicio, fim, perfil, s), EventosGerados(inicio, fim, perfil, s), i)
  {
    EstadoFinal(inicio, fim, perfil, s);
  }

  /**
   * A normal block starts where the cursor stood (the session start, or the end of the
   * previous block) and only while the cursor is before `fim` (lines 66, 100-102).
   */
  lemma BlocoNormalContiguo(inicio: real, fim: real, perfil: PerfilPaciente, s: Sorteios, i: nat)
    requires Valido(s) && i < |EventosGerados(inicio, fim, perfil, s)|
    requires EventosGerados(inicio, fim, perfil, s)[i].origem == Normal
    ensures var ev := EventosGerados(inicio, fim, perfil, s);
      ev[i].timestamp == FimAnterior(inicio, ev, i) && ev[i].timestamp < fim
  {
    EventosOk(inicio, fim, perfil, s, i);
  }

  /**
   * A normal block lasts at least five minutes and ends by `fim`, unless it was cut at the
   * session end, in which case it lasts what was left of the session or, when less than a
   * minute was left, one minute (lines 84, 91, 95-98).
   */
  lemma DuracaoDoBlocoNormal(inicio: real, fim: real, perfil: PerfilPaciente, s: Sorteios, i: nat)
    requires Valido(s) && i < |EventosGerados(inicio, fim, perfil, s)|
    requires EventosGerados(inicio, fim, perfil, s)[i].origem == Normal
    ensures var e := EventosGerados(inicio, fim, perfil, s)[i];
      || (e.duracaoMin >= 5.0 && e.Fim() <= fim)
      || e.duracaoMin == Max(1.0, fim - e.timestamp)
  {
    EventosOk(inicio, fim, perfil, s, i);
  }

  /**
   * Only normal blocks fail, and a failed block that was not cut at the session end lasts
   * more than the limit plus five minutes (lines 87-92).
   */
  lemma FalhaDoBloco(inicio: real, fim: real, perfil: PerfilPaciente, s: Sorteios, i: nat)
    requires Valido(s) && i < |EventosGerados(inicio, fim, perfil, s)|
    requires EventosGerados(inicio, fim, perfil, s)[i].falha
    ensures var e := EventosGerados(inicio, fim, perfil, s)[i];
      && e.origem == Normal
      && (|| e.duracaoMin > perfil.limiteTempoPostura as real + 5.0
          || e.duracaoMin == Max(1.0, fim - e.timestamp))
  {
    EventosOk(inicio, fim, perfil, s, i);
  }

  /**
   * A meal block is supine, lasts `duracao_refeicao`, never fails, starts at one of the
   * session's meal times `h`, and is emitted only when the cursor, still before `fim`,
   * lies in `[h, h + 1)`; so it may start up to a minute before the previous block ends
   * (lines 63, 69-78).
   */
  lemma BlocoDeRefeicao(inicio: real, fim: real, perfil: PerfilPaciente, s: Sorteios, i: nat)
    requires Valido(s) && i < |EventosGerados(inicio, fim, perfil, s)|
    requires EventosGerados(inicio, fim, perfil, s)[i].origem == Refeicao
    ensures var ev := EventosGerados(inicio, fim, perfil, s);
      var antes := FimAnterior(inicio, ev, i);
      && ev[i].postura == Supino
      && ev[i].duracaoMin == perfil.duracaoRefeicao as real
      && !ev[i].falha
      && ev[i].timestamp in RefeicoesDaSessao(perfil, inicio)
      && ev[i].timestamp <= antes < ev[i].timestamp + 1.0
      && antes < fim
  {
    EventosOk(inicio, fim, perfil, s, i);
  }

  /** Each meal time is applied at most once (lines 70, 76). */
  lemma RefeicaoNoMaximoUmaVez(inicio: real, fim: real, perfil: PerfilPaciente, s: Sorteios, i: nat, j: nat)
    requires Valido(s) && i < j < |EventosGerados(inicio, fim, perfil, s)|
    requires EventosGerados(inicio, fim, perfil, s)[i].origem == Refeicao
    requires EventosGerados(inicio, fim, perfil, s)[j].origem == Refeicao
    ensures EventosGerados(inicio, fim, perfil, s)[i].timestamp != EventosGerados(inicio, fim, perfil, s)[j].timestamp
  {
    var ev := EventosGerados(inicio, fim, perfil, s);
    EventosOk(inicio, fim, perfil, s, j);
    assert ev[..j][i] == ev[i];
    AplicadasSaoInicios(ev[..j], ev[i].timestamp);
  }

  /**
   * A normal block never starts inside the window of a meal not already emitted: a meal
   * block for that time came before it (lines 69-80).
   */
  lemma RefeicaoNaJanelaEAplicada(inicio: real, fim: real, perfil: PerfilPaciente, s: Sorteios, i: nat, h: real)
    requires Valido(s) && i < |EventosGerados(inicio, fim, perfil, s)|
    requires EventosGerados(inicio, fim, perfil, s)[i].origem == Normal
    requires h in RefeicoesDaSessao(perfil, inicio)
    requires h <= EventosGerados(inicio, fim, perfil, s)[i].timestamp < h + 1.0
    ensures var ev := EventosGerados(inicio, fim, perfil, s);
      exists j :: 0 <= j < i && ev[j].origem == Refeicao && ev[j].timestamp == h
  {
    var ev := EventosGerados(inicio, fim, perfil, s);
    EventosOk(inicio, fim, perfil, s, i);
    AplicadasSaoInicios(ev[..i], h);
    var j :| 0 <= j < i && ev[..i][j].origem == Refeicao && ev[..i][j].timestamp == h;
    assert ev[j] == ev[..i][j];
  }

  /** The first block is supine (line 60), and so is every block after a meal (line 75). */
  lemma SupinoNoInicioEAposRefeicao(inicio: real, fim: real, perfil: PerfilPaciente, s: Sorteios, i: nat)
    requires Valido(s) && i < |EventosGerados(inicio, fim, perfil, s)|
    requires i == 0 || EventosGerados(inicio, fim, perfil, s)[i - 1].origem == Refeicao
    ensures EventosGerados(inicio, fim, perfil, s)[i].postura == Supino
  {
    EventosOk(inicio, fim, perfil, s, i);
  }

  /**
   * Two normal blocks in a row follow the transition table, so the posture changes
   * (lines 104-109).
   */
  lemma TransicaoSegueTabela(inicio: real, fim: real, perfil: PerfilPaciente, s: Sorteios, i: nat)
    requires Valido(s) && 0 < i < |EventosGerados(inicio, fim, perfil, s)|
    requires EventosGerados(inicio, fim, perfil, s)[i - 1].origem == Normal
    requires EventosGerados(inicio, fim, perfil, s)[i].origem == Normal
    ensures var ev := EventosGerados(inicio, fim, perfil, s);
      ev[i].postura in Opcoes(ev[i - 1].postura) && ev[i].postura != ev[i - 1].postura
  {
    EventosOk(inicio, fim, perfil, s, i);
  }

  /**
   * The loop runs only while `ts < fim`: no events for an empty session, at least one
   * otherwise, and the last event ends at or after `fim` (lines 66, 102).
   */
  lemma TerminoDaSessao(inicio: real, fim: real, perfil: PerfilPaciente, s: Sorteios)
    requires Valido(s)
    ensures var ev := EventosGerados(inicio, fim, perfil, s);
      && (inicio >= fim <==> ev == [])
      && (ev != [] ==> ev[|ev| - 1].Fim() >= fim)
  {
    var ev := EventosGerados(inicio, fim, perfil, s);
    assert FimAnterior(inicio, ev, |ev|) >= fim by {
      EstadoFinal(inicio, fim, perfil, s);
    }
    if inicio >= fim {
      SessaoVazia(inicio, fim, perfil, s);
    }
  }

  /**
   * A normal last block ends exactly at `fim`, unless less than a minute was left when it
   * started, in which case it lasts one minute and ends after `fim` (lines 95-98).
   */
  lemma FimDoUltimoBloco(inicio: real, fim: real, perfil: PerfilPaciente, s: Sorteios)
    requires Valido(s)
    ensures var ev := EventosGerados(inicio, fim, perfil, s);
      ev != [] && ev[|ev| - 1].origem == Normal ==>
        ev[|ev| - 1].Fim() == Max(fim, ev[|ev| - 1].timestamp + 1.0)
  {
    var ev := EventosGerados(inicio, fim, perfil, s);
    if ev != [] && ev[|ev| - 1].origem == Normal {
      TerminoDaSessao(inicio, fim, perfil, s);
      BlocoNormalContiguo(inicio, fim, perfil, s, |ev| - 1);
      DuracaoDoBlocoNormal(inicio, fim, perfil, s, |ev| - 1);
    }
  }

  /** When meals last at least a minute, each event starts after the one before it. */
  lemma InicioCrescenteAdjacente(inicio: real, fim: real, perfil: PerfilPaciente, s: Sorteios, i: nat)
    requires Valido(s) && perfil.duracaoRefeicao >= 1
    requires i + 1 < |EventosGerados(inicio, fim, perfil, s)|
    ensures var ev := EventosGerados(inicio, fim, perfil, s);
      ev[i].timestamp < ev[i + 1].timestamp
  {
    var ev := EventosGerados(inicio, fim, perfil, s);
    if ev[i].origem == Normal {
      DuracaoDoBlocoNormal(inicio, fim, perfil, s, i);
    } else {
      BlocoDeRefeicao(inicio, fim, perfil, s, i);
    }
    if ev[i + 1].origem == Normal {
      BlocoNormalContiguo(inicio, fim, perfil, s, i + 1);
    } else {
      BlocoDeRefeicao(inicio, fim, perfil, s, i + 1);
    }
  }

  /**
   * When meals last at least a minute, the events come out strictly sorted by start, so
   * sorting them by start changes nothing.
   */
  lemma {:induction false} InicioCrescente(inicio: real, fim: real, perfil: PerfilPaciente, s: Sorteios, i: nat, j: nat)
    requires Valido(s) && perfil.duracaoRefeicao >= 1
    requires i < j < |EventosGerados(inicio, fim, perfil, s)|
    ensures var ev := EventosGerados(inicio, fim, perfil, s);
      ev[i].timestamp < ev[j].timestamp
    decreases j - i
  {
    InicioCrescenteAdjacente(inicio, fim, perfil, s, j - 1);
    if i < j - 1 {
      InicioCrescente(inicio, fim, perfil, s, i, j - 1);
    }
  }
}
