/**
 * The event generator `_gerar_eventos` of `dados_simulados/gerador.py` (lines 49-111).
 *
 * `Passo` is one iteration of the source's `while ts < fim` loop and `Executar` runs the
 * loop to its end; they specify the method `GerarEventos`, which keeps the source's
 * variables and updates them step by step.
 */
module Eventos {
  import opened Resultados
  import opened Posturas
  import opened Sorteio
  import opened Perfil

  datatype Origem = Normal | Refeicao

  /** One row of the events table: start instant, posture, minutes, origin, failure flag. */
  datatype Evento = Evento(timestamp: real, postura: Postura, duracaoMin: real, origem: Origem, falha: bool)
  {
    /** The derived `fim` column: start plus duration. */
    function Fim(): real { timestamp + duracaoMin }
  }

  /** What one generation call reads and never changes. */
  datatype Contexto = Contexto(inicio: real, fim: real, perfil: PerfilPaciente, refeicoes: seq<real>, sorteios: Sorteios)

  /**
   * The loop's variables: the cursor `ts`, the posture `atual`, the events so far, the meal
   * times already applied, and the positions reached in the two draw streams.
   */
  datatype Estado = Estado(ts: real, atual: Postura, eventos: seq<Evento>, inseridas: set<real>, ni: nat, pi: nat)

  /** The sampled duration of a normal block before the end clamp, and the draws it used. */
  datatype Bloco = Bloco(duracao: real, falha: bool, ni: nat, pi: nat)

  function Max(a: real, b: real): real { if b > a then b else a }

  /** The contexts `_gerar_eventos` builds from its arguments. */
  function ContextoDe(inicio: real, fim: real, perfil: PerfilPaciente, sorteios: Sorteios): Contexto
  {
    Contexto(inicio, fim, perfil, RefeicoesDaSessao(perfil, inicio), sorteios)
  }

  /** The state before the first iteration (lines 59-64). */
  function EstadoInicial(c: Contexto): (r: Estado)
    ensures r.ts == c.inicio && r.atual == Supino
    ensures r.eventos == [] && r.inseridas == {}
    ensures r.ni == 0 && r.pi == 0
  {
    Estado(c.inicio, Supino, [], {}, 0, 0)
  }

  /** Meal `h` not yet applied, with the cursor inside its one-minute window (line 70). */
  predicate Devida(h: real, inseridas: set<real>, ts: real)
  {
    h !in inseridas && h <= ts < h + 1.0
  }

  /** The inner `for h in refeicoes ... break`: the index of the first due meal, if any. */
  function RefeicaoDevida(refeicoes: seq<real>, inseridas: set<real>, ts: real): (r: Option<nat>)
    ensures r.Some? ==> r.value < |refeicoes| && Devida(refeicoes[r.value], inseridas, ts)
    ensures r.Some? ==> forall j :: 0 <= j < r.value ==> !Devida(refeicoes[j], inseridas, ts)
    ensures r.None? ==> forall j :: 0 <= j < |refeicoes| ==> !Devida(refeicoes[j], inseridas, ts)
  {
    if refeicoes == [] then None
    else if Devida(refeicoes[0], inseridas, ts) then Some(0)
    else
      match RefeicaoDevida(refeicoes[1..], inseridas, ts)
      case None => None
      case Some(k) => Some(k + 1)
  }

  /** A due meal with no due meal before it is the one `RefeicaoDevida` finds. */
  lemma PrimeiraDevida(refeicoes: seq<real>, inseridas: set<real>, ts: real, i: nat)
    requires i < |refeicoes| && Devida(refeicoes[i], inseridas, ts)
    requires forall j :: 0 <= j < i ==> !Devida(refeicoes[j], inseridas, ts)
    ensures RefeicaoDevida(refeicoes, inseridas, ts) == Some(i)
  {
  }

  /** The first draw of a normal block, `_normal_truncada(media, desvio, minimo=5.0)` (line 84). */
  function PrimeiraDuracao(c: Contexto, atual: Postura, ni: nat): (r: real)
    ensures r >= 5.0
    ensures var (media, desvio) := Parametros(atual);
      Sorteio.Normal(media, desvio, c.sorteios.normal(ni)) >= 5.0 ==>
        r == Sorteio.Normal(media, desvio, c.sorteios.normal(ni))
  {
    var (media, desvio) := Parametros(atual);
    NormalTruncada(media, desvio, 5.0, c.sorteios.normal(ni))
  }

  /**
   * Lines 83-92: sample a duration and possibly inflate it by a second draw when it
   * exceeds the profile's limit and the uniform draw falls below the failure probability.
   */
  function SortearDuracao(c: Contexto, atual: Postura, ni: nat, pi: nat): (b: Bloco)
    ensures b.falha <==>
      PrimeiraDuracao(c, atual, ni) > c.perfil.limiteTempoPostura as real
      && c.sorteios.uniforme(pi) < c.perfil.probFalhaReposicao
    ensures !b.falha ==> b.duracao == PrimeiraDuracao(c, atual, ni)
    ensures b.falha ==> b.duracao == PrimeiraDuracao(c, atual, ni) + PrimeiraDuracao(c, atual, ni + 1)
    ensures b.falha ==> b.duracao > c.perfil.limiteTempoPostura as real + 5.0
    ensures b.duracao >= 5.0
    ensures b.ni == ni + (if b.falha then 2 else 1)
    ensures b.pi == pi + (if PrimeiraDuracao(c, atual, ni) > c.perfil.limiteTempoPostura as real then 1 else 0)
  {
    var (media, desvio) := Parametros(atual);
    var dur := NormalTruncada(media, desvio, 5.0, c.sorteios.normal(ni));
    if dur > c.perfil.limiteTempoPostura as real then
      if c.sorteios.uniforme(pi) < c.perfil.probFalhaReposicao then
        Bloco(dur + NormalTruncada(media, desvio, 5.0, c.sorteios.normal(ni + 1)), true, ni + 2, pi + 1)
      else
        Bloco(dur, false, ni + 1, pi + 1)
    else
      Bloco(dur, false, ni + 1, pi)
  }

  /**
   * Lines 95-98: a block that would end after `fim` is cut to the minutes left, but
   * never to less than one minute.
   */
  function AjustarAoFim(ts: real, dur: real, fim: real): (r: real)
    ensures ts + dur <= fim ==> r == dur
    ensures ts + dur > fim ==> ts + r == Max(fim, ts + 1.0)
    ensures dur >= 1.0 ==> 1.0 <= r <= dur
  {
    if ts + dur > fim then Max(1.0, fim - ts) else dur
  }

  /**
   * Lines 105-109: choose among the table's options, then redraw between the two lateral
   * postures if supine was followed by prone. The table never offers prone after supine,
   * so the redraw never happens: the result is the first choice and one draw is used.
   */
  function ProximaPostura(atual: Postura, pi: nat, s: Sorteios): (r: (Postura, nat))
    requires Valido(s)
    ensures r.0 == Escolher(Opcoes(atual), s.uniforme(pi))
    ensures r.0 in Opcoes(atual)
    ensures r.1 == pi + 1
  {
    var proxima := Escolher(Opcoes(atual), s.uniforme(pi));
    var seguinte: nat := pi + 1;
    if atual == Supino && proxima == Prono then SorteioLateral(s, seguinte)
    else (proxima, seguinte)
  }

  /** `random.choice(["lateral_direito", "lateral_esquerdo"])` on the draw at `pi` (line 108). */
  function SorteioLateral(s: Sorteios, pi: nat): (r: (Postura, nat))
    ensures r.1 == pi + 1
    ensures Valido(s) ==> r.0 == Escolher([LateralDireito, LateralEsquerdo], s.uniforme(pi))
  {
    ([LateralDireito, LateralEsquerdo][if s.uniforme(pi) < 0.5 then 0 else 1], pi + 1)
  }

  /** The distinct meal times, as a set. */
  function Conjunto(hs: seq<real>): set<real>
  {
    set h | h in hs
  }

  /** Whole minutes (rounded up) from `ts` to `fim`; zero once `ts` has reached `fim`. */
  function Restante(ts: real, fim: real): (n: nat)
    ensures ts < fim ==> n >= 1 && fim - ts <= n as real
  {
    if ts < fim then -((ts - fim).Floor) else 0
  }

  /** Advancing the cursor by at least one minute uses up at least one minute of the measure. */
  lemma RestanteDecresce(ts: real, ts': real, fim: real)
    requires ts < fim && ts' >= ts + 1.0
    ensures Restante(ts', fim) < Restante(ts, fim)
  {
  }

  /** One iteration of the `while ts < fim` loop (lines 67-109). */
  function Passo(c: Contexto, st: Estado): (r: Estado)
    requires Valido(c.sorteios)
    requires st.ts < c.fim
    ensures |r.eventos| == |st.eventos| + 1 && r.eventos[..|st.eventos|] == st.eventos
    ensures r.inseridas == st.inseridas ==> r.ts >= st.ts + 1.0
    ensures r.inseridas != st.inseridas ==>
      |Conjunto(c.refeicoes) - r.inseridas| < |Conjunto(c.refeicoes) - st.inseridas|
  {
    match RefeicaoDevida(c.refeicoes, st.inseridas, st.ts)
    case Some(i) =>
      var h := c.refeicoes[i];
      var duracao := c.perfil.duracaoRefeicao as real;
      MenosUmaRefeicao(c.refeicoes, st.inseridas, h);
      Estado(h + duracao, Supino, st.eventos + [Evento(h, Supino, duracao, Refeicao, false)],
             st.inseridas + {h}, st.ni, st.pi)
    case None =>
      var b := SortearDuracao(c, st.atual, st.ni, st.pi);
      var dur := AjustarAoFim(st.ts, b.duracao, c.fim);
      var (proxima, pi) := ProximaPostura(st.atual, b.pi, c.sorteios);
      Estado(st.ts + dur, proxima, st.eventos + [Evento(st.ts, st.atual, dur, Normal, b.falha)],
             st.inseridas, b.ni, pi)
  }

  /**
   * The loop run to its end. Each iteration either applies a meal not applied before or
   * moves the cursor forward by at least a minute, so the pair (meals left, minutes left)
   * decreases.
   */
  function Executar(c: Contexto, st: Estado): (r: Estado)
    requires Valido(c.sorteios)
    ensures r.ts >= c.fim
    decreases |Conjunto(c.refeicoes) - st.inseridas|, Restante(st.ts, c.fim)
  {
    if st.ts >= c.fim then st
    else
      var st' := Passo(c, st);
      if st'.inseridas == st.inseridas then
        RestanteDecresce(st.ts, st'.ts, c.fim);
        Executar(c, st')
      else
        Executar(c, st')
  }

  /** Applying a due meal leaves one meal time fewer to apply. */
  lemma MenosUmaRefeicao(hs: seq<real>, inseridas: set<real>, h: real)
    requires h in hs && h !in inseridas
    ensures |Conjunto(hs) - (inseridas + {h})| < |Conjunto(hs) - inseridas|
  {
    assert h in Conjunto(hs) - inseridas;
    assert Conjunto(hs) - (inseridas + {h}) == (Conjunto(hs) - inseridas) - {h};
  }

  /** A step that finds the due meal `i` emits that meal and resumes in supine after it. */
  lemma PassoRefeicao(c: Contexto, st: Estado, i: nat)
    requires Valido(c.sorteios) && st.ts < c.fim
    requires RefeicaoDevida(c.refeicoes, st.inseridas, st.ts) == Some(i)
    ensures Passo(c, st) == Estado(c.refeicoes[i] + c.perfil.duracaoRefeicao as real, Supino,
      st.eventos + [Evento(c.refeicoes[i], Supino, c.perfil.duracaoRefeicao as real, Refeicao, false)],
      st.inseridas + {c.refeicoes[i]}, st.ni, st.pi)
  {
  }

  /** A step with no due meal emits one normal block built from the three sub-steps. */
  lemma PassoNormal(c: Contexto, st: Estado, b: Bloco, dur: real, proxima: Postura, pi: nat)
    requires Valido(c.sorteios) && st.ts < c.fim
    requires RefeicaoDevida(c.refeicoes, st.inseridas, st.ts) == None
    requires b == SortearDuracao(c, st.atual, st.ni, st.pi)
    requires dur == AjustarAoFim(st.ts, b.duracao, c.fim)
    requires proxima == ProximaPostura(st.atual, b.pi, c.sorteios).0
    requires pi == ProximaPostura(st.atual, b.pi, c.sorteios).1
    ensures Passo(c, st) == Estado(st.ts + dur, proxima,
      st.eventos + [Evento(st.ts, st.atual, dur, Normal, b.falha)], st.inseridas, b.ni, pi)
  {
  }

  /** While the cursor is before `fim`, running the loop is one step and then the rest. */
  lemma ExecutarPasso(c: Contexto, st: Estado)
    requires Valido(c.sorteios) && st.ts < c.fim
    ensures Executar(c, st) == Executar(c, Passo(c, st))
  {
  }

  /** The loop adds an event in every iteration, so it adds one as soon as it runs at all. */
  lemma {:induction false} ExecutarAcrescenta(c: Contexto, st: Estado)
    requires Valido(c.sorteios)
    ensures st.ts >= c.fim ==> Executar(c, st) == st
    ensures st.ts < c.fim ==> |Executar(c, st).eventos| > |st.eventos|
    decreases |Conjunto(c.refeicoes) - st.inseridas|, Restante(st.ts, c.fim)
  {
    if st.ts < c.fim {
      var st' := Passo(c, st);
      if st'.inseridas == st.inseridas {
        RestanteDecresce(st.ts, st'.ts, c.fim);
      }
      ExecutarAcrescenta(c, st');
    }
  }

  /** The events `_gerar_eventos(inicio, fim, perfil, seed)` returns, for the given draws. */
  function EventosGerados(inicio: real, fim: real, perfil: PerfilPaciente, sorteios: Sorteios): (r: seq<Evento>)
    requires Valido(sorteios)
    ensures r == [] <==> fim <= inicio
  {
    var c := ContextoDe(inicio, fim, perfil, sorteios);
    ExecutarAcrescenta(c, EstadoInicial(c));
    Executar(c, EstadoInicial(c)).eventos
  }

  /**
   * The inner loop of lines 69-78: the index of the first meal not yet applied whose
   * one-minute window holds `ts`, or `|refeicoes|` when there is none.
   */
  method BuscarRefeicao(refeicoes: seq<real>, inseridas: set<real>, ts: real) returns (i: nat)
    ensures i <= |refeicoes|
    ensures i < |refeicoes| ==> RefeicaoDevida(refeicoes, inseridas, ts) == Some(i)
    ensures i == |refeicoes| ==> RefeicaoDevida(refeicoes, inseridas, ts) == None
  {
    i := 0;
    while i < |refeicoes|
      invariant 0 <= i <= |refeicoes|
      invariant forall j :: 0 <= j < i ==> !Devida(refeicoes[j], inseridas, ts)
    {
      var h := refeicoes[i];
      if h !in inseridas && ts >= h && ts < h + 1.0 {
        PrimeiraDevida(refeicoes, inseridas, ts, i);
        return;
      }
      i := i + 1;
    }
  }

  /**
   * Lines 83-92 as statements: draw the block's duration, and when it is over the limit
   * draw whether the repositioning fails, which adds a second duration draw.
   */
  method SortearBloco(atual: Postura, perfil: PerfilPaciente, sorteios: Sorteios, ni0: nat, pi0: nat,
                      ghost c: Contexto)
    returns (dur: real, falha: bool, ni: nat, pi: nat)
    requires c.perfil == perfil && c.sorteios == sorteios
    ensures Bloco(dur, falha, ni, pi) == SortearDuracao(c, atual, ni0, pi0)
  {
    ni, pi := ni0, pi0;
    var (media, desvio) := Parametros(atual);
    dur := NormalTruncada(media, desvio, 5.0, sorteios.normal(ni));
    ni := ni + 1;

    falha := false;
    if dur > perfil.limiteTempoPostura as real {
      var u := sorteios.uniforme(pi);
      pi := pi + 1;
      if u < perfil.probFalhaReposicao {
        dur := dur + NormalTruncada(media, desvio, 5.0, sorteios.normal(ni));
        ni := ni + 1;
        falha := true;
      }
    }
  }

  /**
   * Lines 104-109 as statements: choose the next posture among the allowed ones, and
   * redraw between the lateral postures when supine would go straight to prone.
   */
  method EscolherProxima(atual: Postura, sorteios: Sorteios, pi0: nat) returns (proxima: Postura, pi: nat)
    requires Valido(sorteios)
    ensures (proxima, pi) == ProximaPostura(atual, pi0, sorteios)
  {
    SupinoNaoOfereceProno();
    proxima := Escolher(Opcoes(atual), sorteios.uniforme(pi0));
    pi := pi0 + 1;
    if atual == Supino && proxima == Prono {
      var lateral := SorteioLateral(sorteios, pi);
      proxima, pi := lateral.0, lateral.1;
    }
  }

  /** `_gerar_eventos`, with the seed replaced by the draw streams it would produce. */
  method GerarEventos(inicio: real, fim: real, perfil: PerfilPaciente, sorteios: Sorteios)
    returns (eventos: seq<Evento>)
    requires Valido(sorteios)
    ensures eventos == EventosGerados(inicio, fim, perfil, sorteios)
  {
    ghost var c := ContextoDe(inicio, fim, perfil, sorteios);
    var ts := inicio;
    var atual := Supino;
    eventos := [];
    var refeicoes := RefeicoesDaSessao(perfil, inicio);
    var inseridas: set<real> := {};
    var ni: nat, pi: nat := 0, 0;

    ghost var st := EstadoInicial(c);
    while ts < fim
      invariant st == Estado(ts, atual, eventos, inseridas, ni, pi)
      invariant Executar(c, st) == Executar(c, EstadoInicial(c))
      decreases |Conjunto(refeicoes) - inseridas|, Restante(ts, fim)
    {
      assert Executar(c, Passo(c, st)) == Executar(c, st) by { ExecutarPasso(c, st); }
      var i := BuscarRefeicao(refeicoes, inseridas, ts);
      if i < |refeicoes| {
        var h := refeicoes[i];
        eventos := eventos + [Evento(h, Supino, perfil.duracaoRefeicao as real, Refeicao, false)];
        ts := h + perfil.duracaoRefeicao as real;
        atual := Supino;
        MenosUmaRefeicao(refeicoes, inseridas, h);
        inseridas := inseridas + {h};
        PassoRefeicao(c, st, i);
      } else {
        var dur, falha;
        dur, falha, ni, pi := SortearBloco(atual, perfil, sorteios, ni, pi, c);
        ghost var bloco := Bloco(dur, falha, ni, pi);
        var fimBloco := ts + dur;
        if fimBloco > fim {
          dur := Max(1.0, fim - ts);
          fimBloco := ts + dur;
        }

        assert dur == AjustarAoFim(ts, bloco.duracao, fim);
        eventos := eventos + [Evento(ts, atual, dur, Normal, falha)];
        ts := fimBloco;

        var proxima;
        proxima, pi := EscolherProxima(atual, sorteios, pi);
        PassoNormal(c, st, bloco, dur, proxima, pi);
        RestanteDecresce(st.ts, ts, fim);
        atual := proxima;
      }
      st := Passo(c, st);
    }
  }
}
