/**
 * The grid resampler `_expandir_para_grade` of `dados_simulados/gerador.py` (lines 113-133):
 * a regular grid of instants, the events sorted by start, and a cursor that only moves
 * forward and gives each instant the posture of the first event whose end is after it, or
 * of the last event.
 */
module Grade {
  import opened Resultados
  import opened Posturas
  import opened Eventos
  import opened Aritmetica

  /** One row of the grid table: an instant and a posture. */
  datatype Amostra = Amostra(timestamp: real, postura: Postura)

  /**
   * How the resampler fails: pandas refuses a zero step, and the model also refuses a
   * negative one (for which pandas builds an empty or descending range); an empty events
   * table has no `timestamp` column to read.
   */
  datatype Erro = PassoInvalido | SemEventos

  /** How many multiples of `passo` fit in `[inicio, fim]`, counting `inicio` itself. */
  function NumeroDePontos(inicio: real, fim: real, passo: nat): (n: nat)
    requires passo > 0
    ensures inicio <= fim ==>
      n >= 1 && inicio + (n - 1) as real * passo as real <= fim < inicio + n as real * passo as real
    ensures inicio > fim ==> n == 0
  {
    if inicio <= fim then
      var q := ((fim - inicio) / passo as real).Floor;
      PisoDaDivisao(fim - inicio, passo as real);
      q + 1
    else 0
  }

  /** A factor between 0 and `m` gives a product between 0 and `m * p`, for a positive `p`. */
  lemma PontoEntre(k: real, m: real, p: real)
    requires 0.0 <= k <= m && p > 0.0
    ensures 0.0 <= k * p <= m * p
  {
    MultiplicarMonotono(0.0, k, p);
    MultiplicarMonotono(k, m, p);
  }

  /** `q = floor(x / p)` is the number of whole steps `p` that fit in `x`. */
  lemma PisoDaDivisao(x: real, p: real)
    requires x >= 0.0 && p > 0.0
    ensures var q := (x / p).Floor;
      q >= 0 && q as real * p <= x < (q as real + 1.0) * p
  {
    var y := x / p;
    var q := y.Floor;
    var seguinte := q as real + 1.0;
    DividirEMultiplicar(x, p);
    MultiplicarMonotono(0.0, y, p);
    MultiplicarMonotono(q as real, y, p);
    MultiplicarMonotono(y, seguinte, p);
    assert x < seguinte * p;
  }

  /** The converse: a `q` with `q * p <= x < (q + 1) * p` is `floor(x / p)`. */
  lemma PisoUnico(x: real, p: real, q: int)
    requires p > 0.0
    requires q as real * p <= x < (q as real + 1.0) * p
    ensures (x / p).Floor == q
  {
    var y := x / p;
    DividirEMultiplicar(x, p);
    MultiplicarMonotono(q as real, y, p);
    MultiplicarMonotono(y, q as real + 1.0, p);
  }

  /** Converting a product of integers to a real. */
  lemma {:induction false} ProdutoReal(a: nat, b: int)
    ensures (a * b) as real == a as real * b as real
  {
    if a > 0 {
      ProdutoReal(a - 1, b);
      assert a * b == (a - 1) * b + b;
    }
  }

  /** `pd.date_range(inicio, fim, freq=f"{passo}min")`: `inicio + k * passo` up to `fim`. */
  function GradeTempos(inicio: real, fim: real, passo: nat): (g: seq<real>)
    requires passo > 0
    ensures |g| == NumeroDePontos(inicio, fim, passo)
    ensures forall k :: 0 <= k < |g| ==> g[k] == inicio + k as real * passo as real
  {
    seq(NumeroDePontos(inicio, fim, passo), k => inicio + k as real * passo as real)
  }

  /** The grid starts at `inicio`; the last point is at most `fim`, the next would be past it. */
  lemma GradeExtremos(inicio: real, fim: real, passo: nat)
    requires passo > 0 && inicio <= fim
    ensures var g := GradeTempos(inicio, fim, passo);
      && |g| >= 1 && g[0] == inicio
      && g[|g| - 1] <= fim < g[|g| - 1] + passo as real
  {
    var g := GradeTempos(inicio, fim, passo);
    var n := |g|;
    var p := passo as real;
    assert (n - 1) as real * p + p == n as real * p;
  }

  /** Consecutive grid points are `passo` apart. */
  lemma GradeEspacada(inicio: real, fim: real, passo: nat, k: nat)
    requires passo > 0 && k + 1 < |GradeTempos(inicio, fim, passo)|
    ensures var g := GradeTempos(inicio, fim, passo);
      g[k + 1] - g[k] == passo as real
  {
    var p := passo as real;
    assert (k + 1) as real * p == k as real * p + p;
  }

  /** Every grid point lies in `[inicio, fim]`. */
  lemma GradeDentro(inicio: real, fim: real, passo: nat, k: nat)
    requires passo > 0 && k < |GradeTempos(inicio, fim, passo)|
    ensures inicio <= GradeTempos(inicio, fim, passo)[k] <= fim
  {
    var g := GradeTempos(inicio, fim, passo);
    var n := |g|;
    var p := passo as real;
    assert inicio <= fim;
    var ultimo := (n - 1) as real * p;
    assert inicio + ultimo <= fim;
    PontoEntre(k as real, (n - 1) as real, p);
    assert g[k] == inicio + k as real * p;
  }

  /** Grid points are strictly increasing. */
  lemma GradeCrescente(inicio: real, fim: real, passo: nat)
    requires passo > 0
    ensures var g := GradeTempos(inicio, fim, passo);
      forall k :: 0 < k < |g| ==> g[k - 1] < g[k]
  {
  }

  /**
   * When the session is a whole number of hours `horas * 60` minutes long, the grid has
   * `horas * 60 / passo + 1` points (integer division).
   */
  lemma {:induction false} NumeroDePontosDaSessao(inicio: real, horas: nat, passo: nat)
    requires passo > 0
    ensures NumeroDePontos(inicio, inicio + (horas * 60) as real, passo) == (horas * 60) / passo + 1
  {
    var total := horas * 60;
    var q, r := total / passo, total % passo;
    assert total == q * passo + r && 0 <= r < passo;
    ProdutoReal(q, passo);
    ProdutoReal(q + 1, passo);
    assert inicio + total as real - inicio == total as real;
    PisoUnico(total as real, passo as real, q);
  }

  /** Events ordered by start. */
  predicate Ordenado(ev: seq<Evento>)
  {
    forall i, j :: 0 <= i < j < |ev| ==> ev[i].timestamp <= ev[j].timestamp
  }

  /** Insert `e` before the first event that does not start before it. */
  function Inserir(e: Evento, ev: seq<Evento>): (r: seq<Evento>)
    requires Ordenado(ev)
    ensures Ordenado(r)
    ensures multiset(r) == multiset(ev) + multiset{e}
    ensures ev != [] && e.timestamp < ev[0].timestamp ==> r == [e] + ev
  {
    if ev == [] || e.timestamp <= ev[0].timestamp then [e] + ev
    else
      var resto := Inserir(e, ev[1..]);
      assert ev == [ev[0]] + ev[1..];
      assert forall x | x in resto :: ev[0].timestamp <= x.timestamp by {
        forall x | x in resto
          ensures ev[0].timestamp <= x.timestamp
        {
          assert x in multiset(resto);
          assert x == e || x in multiset(ev[1..]);
        }
      }
      [ev[0]] + resto
  }

  /** `sort_values("inicio")`, as a stable insertion sort. */
  function OrdenarPorInicio(ev: seq<Evento>): (r: seq<Evento>)
    ensures Ordenado(r)
    ensures multiset(r) == multiset(ev)
  {
    if ev == [] then []
    else
      assert ev == [ev[0]] + ev[1..];
      Inserir(ev[0], OrdenarPorInicio(ev[1..]))
  }

  /** Events whose starts strictly increase are already sorted: sorting leaves them as they are. */
  lemma {:induction false} OrdenarEstritamenteCrescente(ev: seq<Evento>)
    requires forall i, j :: 0 <= i < j < |ev| ==> ev[i].timestamp < ev[j].timestamp
    ensures OrdenarPorInicio(ev) == ev
  {
    if ev != [] {
      OrdenarEstritamenteCrescente(ev[1..]);
      assert ev == [ev[0]] + ev[1..];
    }
  }

  /**
   * The cursor's inner `while` (lines 128-129): from `e`, step past every event that has
   * ended by `t`, stopping at the last event. The result is the first event from `e` on
   * whose end is after `t`, or the last event.
   */
  function Cursor(ev: seq<Evento>, e: nat, t: real): (r: nat)
    requires e < |ev|
    ensures e <= r < |ev|
    ensures r == |ev| - 1 || t < ev[r].Fim()
    ensures forall j :: e <= j < r ==> ev[j].Fim() <= t
    decreases |ev| - e
  {
    if e < |ev| - 1 && t >= ev[e].Fim() then Cursor(ev, e + 1, t) else e
  }

  /** The event whose posture the grid instant `t` gets: the cursor's search from the start. */
  function Cobrindo(ev: seq<Evento>, t: real): nat
    requires ev != []
  {
    Cursor(ev, 0, t)
  }

  /** Any index with `Cobrindo`'s defining property is `Cobrindo`. */
  lemma CobrindoUnico(ev: seq<Evento>, t: real, r: nat)
    requires r < |ev|
    requires r == |ev| - 1 || t < ev[r].Fim()
    requires forall j :: 0 <= j < r ==> ev[j].Fim() <= t
    ensures Cobrindo(ev, t) == r
  {
  }

  /**
   * The cursor never has to go back: a later instant gets the same event or a later one.
   */
  lemma CobrindoMonotono(ev: seq<Evento>, t1: real, t2: real)
    requires ev != [] && t1 <= t2
    ensures Cobrindo(ev, t1) <= Cobrindo(ev, t2)
  {
  }

  /**
   * On events that tile an interval (each starts where the previous one ends, none is
   * empty), an instant inside the interval gets the posture of the event whose
   * `[start, end)` holds it.
   */
  lemma CobrindoNumaTesselacao(ev: seq<Evento>, t: real, j: nat)
    requires j < |ev|
    requires forall i :: 0 <= i < |ev| - 1 ==> ev[i + 1].timestamp == ev[i].Fim()
    requires forall i :: 0 <= i < |ev| ==> ev[i].duracaoMin > 0.0
    requires ev[j].timestamp <= t < ev[j].Fim()
    ensures Cobrindo(ev, t) == j
  {
    assert forall i :: 0 <= i < j ==> ev[i].Fim() <= ev[j].timestamp by {
      TesselacaoCrescente(ev, j);
    }
    CobrindoUnico(ev, t, j);
  }

  /**
   * In a tiling of events of positive duration, every earlier event ends by the
   * start of event `j`.
   */
  lemma {:induction false} TesselacaoCrescente(ev: seq<Evento>, j: nat)
    requires j < |ev|
    requires forall i :: 0 <= i < |ev| - 1 ==> ev[i + 1].timestamp == ev[i].Fim()
    requires forall i :: 0 <= i < |ev| ==> ev[i].duracaoMin > 0.0
    ensures forall i :: 0 <= i < j ==> ev[i].Fim() <= ev[j].timestamp
  {
    if j > 0 {
      TesselacaoCrescente(ev, j - 1);
    }
  }

  /**
   * What `_expandir_para_grade` returns: an error for a step that is not positive or
   * for no events, otherwise one sample per grid point, stamped with that point.
   */
  function Expandida(eventos: seq<Evento>, passo: int, inicio: real, fim: real): (r: Result<seq<Amostra>, Erro>)
    ensures passo <= 0 ==> r == Err(PassoInvalido)
    ensures passo > 0 && eventos == [] ==> r == Err(SemEventos)
    ensures passo > 0 && eventos != [] ==> r.Ok?
    ensures r.Ok? ==> |r.value| == NumeroDePontos(inicio, fim, passo)
    ensures r.Ok? ==> forall k :: 0 <= k < |r.value| ==>
      r.value[k].timestamp == inicio + k as real * passo as real
  {
    if passo <= 0 then Err(PassoInvalido)
    else if eventos == [] then Err(SemEventos)
    else
      var g := GradeTempos(inicio, fim, passo);
      var ev := OrdenarPorInicio(eventos);
      Ok(seq(|g|, k requires 0 <= k < |g| => AmostraEm(ev, g[k])))
  }

  /** The sample at instant `t`: the posture of the event the cursor finds for `t`. */
  function AmostraEm(ev: seq<Evento>, t: real): (a: Amostra)
    requires ev != []
    ensures a.timestamp == t && a.postura == ev[Cobrindo(ev, t)].postura
  {
    Amostra(t, ev[Cobrindo(ev, t)].postura)
  }

  /** The samples of a successful expansion, one per grid point, in grid order. */
  lemma AmostrasDaGrade(eventos: seq<Evento>, passo: int, inicio: real, fim: real)
    requires passo > 0 && eventos != []
    ensures var r := Expandida(eventos, passo, inicio, fim);
      var g := GradeTempos(inicio, fim, passo);
      var ev := OrdenarPorInicio(eventos);
      && r.Ok?
      && |r.value| == |g|
      && forall k :: 0 <= k < |g| ==>
           r.value[k].timestamp == g[k] && r.value[k].postura == ev[Cobrindo(ev, g[k])].postura
  {
  }

  /**
   * Sample `k` of the expansion of events already sorted by start lies in `[inicio, fim]`
   * and takes the posture of the event the cursor finds for its instant.
   */
  lemma {:induction false} AmostraDaGrade(eventos: seq<Evento>, passo: int, inicio: real, fim: real, k: nat)
    requires passo > 0 && eventos != [] && OrdenarPorInicio(eventos) == eventos
    requires k < |Expandida(eventos, passo, inicio, fim).value|
    ensures var a := Expandida(eventos, passo, inicio, fim).value[k];
      inicio <= a.timestamp <= fim && a.postura == eventos[Cobrindo(eventos, a.timestamp)].postura
  {
    AmostrasDaGrade(eventos, passo, inicio, fim);
    GradeDentro(inicio, fim, passo, k);
  }

  /** The first sample is stamped `inicio` and takes the posture of the event the cursor finds for `inicio`. */
  lemma PrimeiraAmostra(eventos: seq<Evento>, passo: int, inicio: real, fim: real)
    requires passo > 0 && eventos != [] && inicio <= fim
    ensures var r := Expandida(eventos, passo, inicio, fim);
      var ev := OrdenarPorInicio(eventos);
      && r.Ok? && |r.value| > 0 && r.value[0].timestamp == inicio
      && r.value[0].postura == ev[Cobrindo(ev, inicio)].postura
  {
    AmostrasDaGrade(eventos, passo, inicio, fim);
    GradeExtremos(inicio, fim, passo);
  }

  /**
   * A successful expansion has one sample per grid point: the first at `inicio`, each
   * `passo` after the previous one, the last at most `fim` and within one step of it.
   */
  lemma FormaDaExpansao(eventos: seq<Evento>, passo: int, inicio: real, fim: real)
    requires passo > 0 && eventos != [] && inicio <= fim
    ensures var r := Expandida(eventos, passo, inicio, fim);
      && r.Ok?
      && |r.value| == NumeroDePontos(inicio, fim, passo)
      && r.value[0].timestamp == inicio
      && r.value[|r.value| - 1].timestamp <= fim < r.value[|r.value| - 1].timestamp + passo as real
      && forall k :: 0 <= k < |r.value| - 1 ==>
           r.value[k + 1].timestamp - r.value[k].timestamp == passo as real
  {
    var r := Expandida(eventos, passo, inicio, fim);
    var g := GradeTempos(inicio, fim, passo);
    AmostrasDaGrade(eventos, passo, inicio, fim);
    GradeExtremos(inicio, fim, passo);
    forall k | 0 <= k < |r.value| - 1
      ensures r.value[k + 1].timestamp - r.value[k].timestamp == passo as real
    {
      GradeEspacada(inicio, fim, passo, k);
    }
  }

  /** `FormaDaExpansao` for a window of a whole number of hours. */
  lemma ExpansaoDeHoras(eventos: seq<Evento>, passo: int, inicio: real, fim: real, horas: nat)
    requires passo > 0 && eventos != [] && horas > 0 && fim == inicio + (horas * 60) as real
    ensures var r := Expandida(eventos, passo, inicio, fim);
      && r.Ok?
      && |r.value| == (horas * 60) / passo + 1
      && r.value[0].timestamp == inicio
      && r.value[|r.value| - 1].timestamp <= fim < r.value[|r.value| - 1].timestamp + passo as real
      && forall k :: 0 <= k < |r.value| - 1 ==>
           r.value[k + 1].timestamp - r.value[k].timestamp == passo as real
  {
    FormaDaExpansao(eventos, passo, inicio, fim);
    assert NumeroDePontos(inicio, fim, passo) == (horas * 60) / passo + 1 by {
      NumeroDePontosDaSessao(inicio, horas, passo);
    }
    var r := Expandida(eventos, passo, inicio, fim);
    assert r.Ok?;
    assert |r.value| == (horas * 60) / passo + 1;
    assert r.value[0].timestamp == inicio;
    assert r.value[|r.value| - 1].timestamp <= fim < r.value[|r.value| - 1].timestamp + passo as real;
  }


  /**
   * `_expandir_para_grade`: the grid, the events sorted by start, and one pass of the cursor
   * `e_idx`, which only moves forward, over both.
   */
  method ExpandirParaGrade(eventos: seq<Evento>, passo: int, inicio: real, fim: real)
    returns (r: Result<seq<Amostra>, Erro>)
    ensures r == Expandida(eventos, passo, inicio, fim)
  {
    if passo <= 0 {
      return Err(PassoInvalido);
    }
    var idx := GradeTempos(inicio, fim, passo);
    if eventos == [] {
      return Err(SemEventos);
    }
    var ev := OrdenarPorInicio(eventos);
    GradeCrescente(inicio, fim, passo);
    var out := Varrer(ev, idx);
    return Ok(out);
  }

  /**
   * The loop of lines 126-131 over increasing instants `idx`: the cursor `eIdx` starts at
   * the first event and only moves forward, and each instant gets the posture of the first
   * event whose end is after it, or of the last event.
   */
  method Varrer(ev: seq<Evento>, idx: seq<real>) returns (out: seq<Amostra>)
    requires ev != []
    requires forall k :: 0 < k < |idx| ==> idx[k - 1] < idx[k]
    ensures out == seq(|idx|, k requires 0 <= k < |idx| => AmostraEm(ev, idx[k]))
  {
    out := [];
    var eIdx := 0;
    for k := 0 to |idx|
      invariant |out| == k
      invariant eIdx < |ev|
      invariant k == 0 ==> eIdx == 0
      invariant k > 0 ==> eIdx == Cobrindo(ev, idx[k - 1])
      invariant k > 0 ==> forall j :: 0 <= j < eIdx ==> ev[j].Fim() <= idx[k - 1]
      invariant forall m :: 0 <= m < k ==> out[m] == AmostraEm(ev, idx[m])
    {
      var t := idx[k];
      ghost var eAntes := eIdx;
      while eIdx < |ev| - 1 && t >= ev[eIdx].Fim()
        invariant eAntes <= eIdx < |ev|
        invariant forall j :: 0 <= j < eIdx ==> ev[j].Fim() <= t
      {
        eIdx := eIdx + 1;
      }
      CobrindoUnico(ev, t, eIdx);
      out := out + [Amostra(t, ev[eIdx].postura)];
    }
  }
}
