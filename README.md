# Posture-session simulator, modelled in Dafny

`dados_simulados/gerador.py` simulates the posture history of a bedridden patient. A
patient lies supine, on the right or left side, or prone. They stay in each posture for a
randomly drawn time, are sometimes left too long (a repositioning failure), and are put
supine for meal breaks. The module produces two tables:

- `gerar_eventos_sessao` returns the raw events: start, posture, duration, origin
  (`normal` or `refeicao`), failure flag, plus derived `inicio`/`fim` columns;
- `gerar_sessao_simulada` returns the same session resampled onto a regular grid of
  instants `passo` minutes apart, one posture per instant.

The model covers the tables and helpers, the event generator `_gerar_eventos`, the grid
resampler `_expandir_para_grade`, and the two entry points. It is organised as follows:

- `posturas.dfy` (`Posturas`): the four postures, the transition table, the duration
  parameters, and the fallback list of the successor lookup.
- `sorteio.dfy` (`Sorteio`): randomness as input. `Sorteios` holds two streams. `normal(i)`
  is the i-th standard-normal draw of numpy. `uniforme(i)` is the i-th draw in [0, 1) of
  Python's `random`. A numpy normal with mean `m` and deviation `d` is `m + d * z`. Each
  `random()` and each `random.choice` uses one uniform `u`; `choice` picks index
  `floor(u * n)`.
- `perfil.dfy` (`Perfil`): the patient profile, the default meal times, and the meal list
  a session uses. Time is a `real` number of minutes from an epoch that falls on a
  midnight. So `inicio.replace(hour=6, minute=0, ...)` is day `floor(inicio / 1440)` at
  minute 360.
- `eventos.dfy` (`Eventos`): the generator. `Passo` is one iteration of the
  `while ts < fim` loop as a function of the loop state. `Executar` runs the loop to its
  end. Its termination measure is the pair (meal times not yet applied, whole minutes
  left). The method `GerarEventos` keeps the source's variables, updates them step by step,
  and is proved to return exactly `EventosGerados`, the events `Executar` produces.
- `propriedades_eventos.dfy` (`PropriedadesEventos`): an invariant that `Passo` preserves,
  and from it the per-event properties of every generated session.
- `grade.dfy` (`Grade`): the grid, the sort by start, and the forward-only cursor. The
  method `ExpandirParaGrade` is proved equal to `Expandida`, which gives every grid instant
  the posture of the first event whose end is after it, or of the last event. In a
  generated session, that event holds the instant whenever the instant is before the last
  event's end (`CobrindoNosEventosGerados`, `AmostraCoberta`).
- `sessao.dfy` (`Sessao`): the two entry points and what they return.
- `aritmetica.dfy` (`Aritmetica`) and `resultados.dfy` (`Resultados`): facts about real
  multiplication, and the `Option` and `Result` types.
- `peculiaridades.dfy` (`Peculiaridades`): concrete sessions, with the draws fixed, that
  show the generator's less obvious behaviours.

The events are not an exact tiling of `[inicio, fim)`. The model follows the code
wherever it differs from reading the events as an exact tiling of the session:

- A meal block starts at the meal time `h`, not at the cursor `ts`. It is emitted when
  `h <= ts < h + 1`, so it can start up to a minute before the previous block ends
  (`RefeicaoAntesDoCursor`).
- Meal blocks are not cut at `fim`.
- A meal whose one-minute window the cursor never lands in is skipped (`RefeicaoPulada`).
- The end clamp can leave `falha` set on a block that now lasts no more than the limit
  (`FalhaEmBlocoCortado`).
- When less than a minute is left, the last block lasts one minute and ends after `fim`
  (`UltimoBlocoUltrapassaFim`).
- The supine-to-prone redraw (lines 107-108) never fires: the table never offers prone
  after supine (`SupinoNaoOfereceProno`, `ProximaPostura`).

Determinism holds by construction: for the same arguments and the same draws, every
function returns the same result.

## Model

| member | source | states |
|---|---|---|
| Posturas.SemPostura | dados_simulados/gerador.py:46 | The fallback list holds exactly the postures of the list other than the current one. |
| Posturas.SemPosturaPreservaOrdem | dados_simulados/gerador.py:46 | For each posture, the fallback list is the other three in the order of `POSTURAS`. |
| Posturas.Opcoes | dados_simulados/gerador.py:12-17 | The successors of any posture are non-empty, are postures, and never include the posture itself. |
| Posturas.Parametros | dados_simulados/gerador.py:20-25 | The mean and deviation of each posture's duration are positive. |
| Posturas.TabelasCompletas | dados_simulados/gerador.py:12-25 | Both tables have an entry for every posture, so the defaults of lines 46 and 83 are never used. |
| Posturas.SupinoNaoOfereceProno | dados_simulados/gerador.py:13 | Prone is not a successor of supine. |
| Posturas.TransicoesSimetricas | dados_simulados/gerador.py:12-17 | The table is symmetric: q follows p exactly when p follows q. |
| Sorteio.Normal | dados_simulados/gerador.py:42 | With a positive deviation, the raw draw is at least the mean exactly when z >= 0, and equals the mean exactly when z = 0. |
| Sorteio.NormalTruncada | dados_simulados/gerador.py:40-43 | The result is at least the minimum; it is the raw draw when the draw is at least the minimum, and otherwise the minimum. |
| Sorteio.Indice | dados_simulados/gerador.py:47 | The index drawn from u in [0,1) is a valid index k with k <= u*n < k+1. |
| Sorteio.Escolher | dados_simulados/gerador.py:45-47 | `random.choice` returns an element of the list. |
| Sorteio.EscolherAlcancaTodas | dados_simulados/gerador.py:47 | Every element of the list is chosen by some draw (u = k/n picks the k-th). |
| Perfil.PerfilPadrao | dados_simulados/gerador.py:29-33 | The default profile has a 120-minute limit, failure probability 0.7 and 30-minute meals, and no meal list, so it uses the three default meal times. |
| Perfil.Dia | dados_simulados/gerador.py:37 | The day number of t is the k with k*1440 <= t < (k+1)*1440. |
| Perfil.HoraDoDia | dados_simulados/gerador.py:37 | The minute within the day lies in [0, 1440). |
| Perfil.DiaUnico | dados_simulados/gerador.py:37 | Any k with k*1440 <= t < (k+1)*1440 is the day of t. |
| Perfil.HorariosRefeicaoPadrao | dados_simulados/gerador.py:35-38 | There are three default meals, 6, 12 and 18 hours after 06:00 of the start day. |
| Perfil.HorasDasRefeicoesPadrao | dados_simulados/gerador.py:35-38 | The default meals are at 12:00 and 18:00 of the start day and at 00:00 of the next day. |
| Perfil.RefeicoesDaSessao | dados_simulados/gerador.py:63 | A non-empty meal list is used as given; a missing or empty list gives the three defaults; the result is never empty. |
| Eventos.EstadoInicial | dados_simulados/gerador.py:59-64 | The loop starts at `inicio`, supine, with no events, no meal applied, and no draw used. |
| Eventos.RefeicaoDevida | dados_simulados/gerador.py:69-70 | The index found is a due meal (not applied, cursor in its one-minute window) with no due meal before it; None means no meal is due. |
| Eventos.PrimeiraDevida | dados_simulados/gerador.py:69-78 | A due meal with no due meal before it is the one the scan stops at. |
| Eventos.BuscarRefeicao | dados_simulados/gerador.py:68-78 | The `for ... break` scan returns the index of the first due meal, or the length of the list when none is due. |
| Eventos.PrimeiraDuracao | dados_simulados/gerador.py:83-84 | The first draw of a block is at least 5 minutes, and is the raw normal draw with the posture's mean and deviation whenever that draw is at least 5. |
| Eventos.SortearDuracao | dados_simulados/gerador.py:83-92 | `falha` holds exactly when the first draw exceeds the limit and the uniform is below the failure probability. Without failure the duration is the first draw. With failure it is the first draw plus a second floored draw taken from the next normal position, so it exceeds limit + 5. It is always at least 5. Each stream advances by the draws used. |
| Eventos.SortearBloco | dados_simulados/gerador.py:83-92 | The statements of the sampling step compute exactly `SortearDuracao`. |
| Eventos.AjustarAoFim | dados_simulados/gerador.py:94-98 | A block that fits is kept. Otherwise it ends at max(fim, ts + 1): exactly at `fim` when a minute or more was left. A block of at least a minute never grows. |
| Eventos.ProximaPostura | dados_simulados/gerador.py:104-109 | The next posture is the one `random.choice` picks from the table, and it is allowed by the table; one uniform is used, since the redraw never happens. |
| Eventos.EscolherProxima | dados_simulados/gerador.py:104-109 | The statements of the choice step, including the redraw branch, compute exactly `ProximaPostura`. |
| Eventos.SorteioLateral | dados_simulados/gerador.py:108 | The redraw picks a lateral posture and uses one uniform. |
| Eventos.Restante | dados_simulados/gerador.py:66 | While ts < fim the measure is at least 1 and covers the time left. |
| Eventos.RestanteDecresce | dados_simulados/gerador.py:95-102 | Moving the cursor by at least a minute lowers the measure. |
| Eventos.MenosUmaRefeicao | dados_simulados/gerador.py:76 | Applying a meal leaves fewer unapplied meal times. |
| Eventos.Passo | dados_simulados/gerador.py:66-109 | An iteration adds one event and keeps the earlier ones. It either applies a new meal or moves the cursor forward by at least a minute. |
| Eventos.PassoRefeicao | dados_simulados/gerador.py:69-80 | An unfolding of `Passo`, used as a proof step: with a due meal, the iteration emits the supine meal block at h and resumes in supine at h + duracao_refeicao. |
| Eventos.PassoNormal | dados_simulados/gerador.py:82-109 | An unfolding of `Passo`, used as a proof step: with no due meal, the iteration is the draw, the clamp, the append and the choice, in that order. |
| Eventos.Executar | dados_simulados/gerador.py:66 | The loop ends with the cursor at or after `fim`. |
| Eventos.ExecutarPasso | dados_simulados/gerador.py:66 | An unfolding of `Executar`, used as a proof step: before `fim`, running the loop is one iteration followed by the rest. |
| Eventos.ExecutarAcrescenta | dados_simulados/gerador.py:66-109 | A loop that starts at or after `fim` changes nothing; one that starts before `fim` emits at least one event. |
| Eventos.EventosGerados | dados_simulados/gerador.py:49-111 | The generator returns no events exactly when fim <= inicio. |
| Eventos.GerarEventos | dados_simulados/gerador.py:49-111 | The imperative generator returns exactly the events of the loop specification, for every input and every draw stream. |
| PropriedadesEventos.AplicadasSaoInicios | dados_simulados/gerador.py:71-76 | The set of applied meal times is exactly the set of starts of the emitted meal blocks. |
| PropriedadesEventos.EventoOkAposAcrescimo | dados_simulados/gerador.py:71 | Appending an event does not change what held of the earlier ones. |
| PropriedadesEventos.NovoEventoOk | dados_simulados/gerador.py:67-109 | The event an iteration emits satisfies the per-event description. |
| PropriedadesEventos.InvPasso | dados_simulados/gerador.py:67-109 | One iteration preserves the invariant. The cursor is the end of the last event. The applied set is the set of meal starts. The posture is a successor of the last event. Every event satisfies its description. |
| PropriedadesEventos.InvExecutar | dados_simulados/gerador.py:66 | The whole loop preserves the invariant. |
| PropriedadesEventos.EstadoFinal | dados_simulados/gerador.py:59-111 | The final state satisfies the invariant, its cursor is at or after `fim`, and its events are the generated events. |
| PropriedadesEventos.SessaoVazia | dados_simulados/gerador.py:66 | A session with inicio >= fim has no events. |
| PropriedadesEventos.EventosOk | dados_simulados/gerador.py:59-111 | Every generated event satisfies its description. |
| PropriedadesEventos.BlocoNormalContiguo | dados_simulados/gerador.py:100-102 | A normal block starts where the previous event ends (at `inicio` for the first), and before `fim`. |
| PropriedadesEventos.DuracaoDoBlocoNormal | dados_simulados/gerador.py:84-98 | A normal block lasts at least 5 minutes and ends by `fim`, or it was cut and lasts max(1, fim - start). |
| PropriedadesEventos.FalhaDoBloco | dados_simulados/gerador.py:87-92 | Only normal blocks fail. A failed block lasts more than limit + 5, unless it was cut at the end. |
| PropriedadesEventos.BlocoDeRefeicao | dados_simulados/gerador.py:63-78 | A meal block is supine, lasts duracao_refeicao, never fails, and starts at one of the session's meal times h. The previous end lies in [h, h + 1) and before `fim`. |
| PropriedadesEventos.RefeicaoNoMaximoUmaVez | dados_simulados/gerador.py:70-76 | Two meal blocks never share a meal time. |
| PropriedadesEventos.RefeicaoNaJanelaEAplicada | dados_simulados/gerador.py:69-80 | A normal block that starts inside a meal's one-minute window comes after that meal's block. |
| PropriedadesEventos.SupinoNoInicioEAposRefeicao | dados_simulados/gerador.py:60-75 | The first block and every block after a meal are supine. |
| PropriedadesEventos.TransicaoSegueTabela | dados_simulados/gerador.py:104-109 | Two consecutive normal blocks follow the transition table, so their postures differ. |
| PropriedadesEventos.TerminoDaSessao | dados_simulados/gerador.py:66-102 | There are no events exactly when inicio >= fim. The last event ends at or after `fim`. |
| PropriedadesEventos.FimDoUltimoBloco | dados_simulados/gerador.py:95-98 | A last normal block ends at max(fim, start + 1). |
| PropriedadesEventos.InicioCrescenteAdjacente | dados_simulados/gerador.py:71-102 | When meals last at least a minute, each event starts strictly after the previous one. |
| PropriedadesEventos.InicioCrescente | dados_simulados/gerador.py:71-102 | When meals last at least a minute, event starts strictly increase across the whole list. |
| Grade.NumeroDePontos | dados_simulados/gerador.py:116 | The grid has n points: inicio + (n-1)*passo <= fim < inicio + n*passo, and none when fim < inicio. |
| Grade.PisoDaDivisao | dados_simulados/gerador.py:116 | floor(x/p) whole steps of p fit in x and one more does not. |
| Grade.PisoUnico | dados_simulados/gerador.py:116 | A q with q*p <= x < (q+1)*p is floor(x/p). |
| Grade.ProdutoReal | dados_simulados/gerador.py:116 | A product of integers converts to the product of the converted numbers. |
| Grade.GradeTempos | dados_simulados/gerador.py:116 | The k-th grid point is inicio + k*passo, and the count is `NumeroDePontos`. |
| Grade.GradeExtremos | dados_simulados/gerador.py:116 | The grid starts at `inicio`. Its last point is at most `fim`, and one more step would pass `fim`. |
| Grade.GradeEspacada | dados_simulados/gerador.py:116 | Consecutive grid points are `passo` apart. |
| Grade.GradeDentro | dados_simulados/gerador.py:116 | Every grid point lies in [inicio, fim]. |
| Grade.GradeCrescente | dados_simulados/gerador.py:116 | Grid points strictly increase. |
| Grade.NumeroDePontosDaSessao | dados_simulados/gerador.py:116 | A session of `horas` hours (the window of line 150) has horas*60/passo + 1 grid points (integer division). |
| Grade.Inserir | dados_simulados/gerador.py:124 | Inserting into a sorted list keeps it sorted and adds exactly that event. |
| Grade.OrdenarPorInicio | dados_simulados/gerador.py:124 | The sort returns a permutation of the events, ordered by start. |
| Grade.OrdenarEstritamenteCrescente | dados_simulados/gerador.py:124 | Events whose starts already increase strictly come back unchanged. |
| Grade.Cursor | dados_simulados/gerador.py:128-129 | From position e, the cursor stops at the first event whose end is after t, or at the last event. Every event it steps past has ended by t. |
| Grade.CobrindoUnico | dados_simulados/gerador.py:128-129 | Any index with that stopping property is the one a search from the first event finds. |
| Grade.CobrindoMonotono | dados_simulados/gerador.py:126-129 | A later instant never needs an earlier event, so the cursor never moves back. |
| Grade.CobrindoNumaTesselacao | dados_simulados/gerador.py:126-130 | On events that tile an interval, an instant gets the event whose [start, end) holds it. |
| Grade.TesselacaoCrescente | dados_simulados/gerador.py:126-130 | In a tiling, every event before the j-th ends by the j-th's start. |
| Grade.AmostraEm | dados_simulados/gerador.py:129-130 | A sample pairs the instant with the posture of the event the cursor finds: the first whose end is after the instant, or the last event. |
| Grade.Expandida | dados_simulados/gerador.py:113-133 | A non-positive step is an error, and so is an empty event table. Otherwise the expansion succeeds, with one sample per grid point, the k-th stamped inicio + k*passo. |
| Grade.AmostrasDaGrade | dados_simulados/gerador.py:113-133 | An unfolding of `Expandida`, used as a proof step: a successful expansion has one sample per grid point, in grid order, each with the posture of the event the cursor finds for its instant. |
| Grade.AmostraDaGrade | dados_simulados/gerador.py:126-130 | For events already in order of start, sample k lies in [inicio, fim] and takes the posture of the event the cursor finds for its instant. |
| Grade.PrimeiraAmostra | dados_simulados/gerador.py:126-130 | The first sample is stamped `inicio` and takes the posture of the sorted event the cursor finds for `inicio`. |
| Grade.FormaDaExpansao | dados_simulados/gerador.py:116-131 | The samples start at `inicio` and are `passo` apart. The last is at most `fim` and within one step of it. |
| Grade.ExpansaoDeHoras | dados_simulados/gerador.py:116-131 | Over a window of `horas` whole hours, the expansion has horas*60/passo + 1 samples, from `inicio`, `passo` apart, the last within one step of the end. |
| Grade.Varrer | dados_simulados/gerador.py:118-131 | The forward-only cursor loop gives every instant the posture of the event that a fresh search would find. |
| Grade.ExpandirParaGrade | dados_simulados/gerador.py:113-133 | The resampler returns exactly `Expandida`. That is an error for a non-positive step or no events; otherwise one sample per grid point, with the posture of the first sorted event whose end is after the instant, or of the last event. |
| Sessao.JanelaDaSessao | dados_simulados/gerador.py:147-150 | The window is horas*60 minutes long. It starts at `inicio` when given, and otherwise ends at the current minute. |
| Sessao.PerfilEmUso | dados_simulados/gerador.py:152-153 | A given profile is used as is; a missing one is the default profile. |
| Sessao.SessaoSimulada | dados_simulados/gerador.py:135-157 | A non-positive step is an error; a successful series has as many samples as the window's grid has points. |
| Sessao.SessaoExiste | dados_simulados/gerador.py:135-157 | A non-positive step is refused. Otherwise the series exists exactly when horas > 0; with no hours there are no events to expand. |
| Sessao.FormaDaSessao | dados_simulados/gerador.py:135-157 | With horas > 0 and a positive step, the series has horas*60/passo + 1 samples, `passo` apart, from the window's start to at most its end. |
| Sessao.OrdenacaoSemEfeito | dados_simulados/gerador.py:124 | When meals last at least a minute, sorting the generated events changes nothing. |
| Sessao.PrimeiraAmostraSupina | dados_simulados/gerador.py:126-130 | When meals last at least a minute, the first sample of every session is supine: the first event is supine (lines 60 and 75) and is the one the cursor finds for the window's start. |
| Sessao.PrimeiroEventoSupino | dados_simulados/gerador.py:60-102 | When meals last at least a minute and the window is not empty, the first event is supine and is the one the cursor finds for the window's start. |
| Sessao.CobrindoNosEventosGerados | dados_simulados/gerador.py:66-130 | In a generated session, for an instant from the window's start to before the last event's end, the event the cursor finds starts at or before the instant and ends after it, although meal blocks may overlap the previous block. |
| Sessao.AmostraCoberta | dados_simulados/gerador.py:135-157 | When meals last at least a minute, every sample whose instant is before the last event's end has the posture of a generated event that holds that instant. |
| Sessao.AmostraDosEventos | dados_simulados/gerador.py:113-133 | The same statement as `AmostraCoberta`, for the expansion of a window's generated events over that window. |
| Sessao.SessaoComoExpansao | dados_simulados/gerador.py:147-156 | For a positive number of hours the window is not empty, and the series is the expansion of the window's events over the window. |
| Sessao.GerarSessaoSimulada | dados_simulados/gerador.py:135-157 | Generating then resampling returns exactly `SessaoSimulada`, whose properties `SessaoExiste` and `FormaDaSessao` state. |
| Sessao.ExtremosDosEventos | dados_simulados/gerador.py:66-102 | A window of positive length has events. The first starts at its start, or less than a minute before it for a meal; the last reaches its end. |
| Sessao.ComColunas | dados_simulados/gerador.py:185-186 | Each row keeps its event, with `inicio` the start and `fim` the start plus the duration. |
| Sessao.GerarEventosSessao | dados_simulados/gerador.py:159-187 | Fails exactly when horas <= 0, because there are no events. Otherwise it returns the generated events with their columns, covering the window from start to end. |
| Peculiaridades.FalhaEmBlocoCortado | dados_simulados/gerador.py:87-98 | A concrete session whose only block fails and is then cut to 10 minutes, under the 120-minute limit. |
| Peculiaridades.UltimoBlocoUltrapassaFim | dados_simulados/gerador.py:96-97 | A half-minute session whose only block lasts one minute and ends after `fim`. |
| Peculiaridades.RefeicaoPulada | dados_simulados/gerador.py:69-80 | A concrete session in which the cursor jumps over a meal's one-minute window, and the meal is never emitted. |
| Peculiaridades.RefeicaoAntesDoCursor | dados_simulados/gerador.py:70-74 | A concrete session whose meal block starts half a minute before the previous block ends and runs past `fim`. |

## Left out

- `main.py` is not part of this model: it parses arguments, creates directories, writes
  CSV files and prints.
- The pseudo-random generators are inputs, not models: the seeding with `seed`
  (lines 56-57), the Mersenne Twister, and numpy's normal sampler. The model takes their
  output streams, so it says nothing about the distribution of durations.
  `Valido` asks only that the uniforms lie in [0, 1).
- `Sorteio.Escolher`: CPython's `random.choice` draws its index by rejection sampling over
  random bits, not from one `random()` call. The model uses one uniform per choice and
  index `floor(u * n)`. Which posture a given seed picks is therefore not modelled; that
  the pick is one of the allowed postures is.
- Floating-point arithmetic, and `timedelta`'s rounding to microseconds in
  `timedelta(minutes=dur)` and `total_seconds() / 60` (lines 95-98), are replaced by exact
  real arithmetic.
- Calendar arithmetic beyond days of 1440 minutes from a midnight epoch: no time zones,
  no daylight-saving changes. This is how the naive datetimes of the source behave.
- `Sessao.JanelaDaSessao`: `datetime.now()` is a parameter `relogio` (minutes); dropping
  its seconds and microseconds is `floor`.
- pandas is replaced by sequences of records: `pd.DataFrame`, `pd.to_datetime`, ISO
  formatting of the grid instants (instants stay numbers), and the columns themselves.
- `Grade.OrdenarPorInicio`: `sort_values` uses a quicksort that is not stable. The model
  sorts stably, so events with equal starts may come out in another order than pandas
  gives. `Sessao.OrdenacaoSemEfeito` shows that ties cannot occur when meals last at least
  a minute.
- `Grade.ExpandirParaGrade`: every non-positive step is an error. pandas raises for a zero
  step; for a negative one it builds a descending or empty range, which is not modelled.
- `Grade.Expandida`: a negative step is `Err(PassoInvalido)`, while the source builds an
  empty or descending range for it and returns a table, not an error.
- `Sessao.SessaoSimulada`: a negative step is `Err(PassoInvalido)`, while the source returns
  a table built from that empty or descending range.
- `Sessao.SessaoExiste`: a negative step is `Err(PassoInvalido)`, while the source, given
  events, returns an empty table for it (the empty range above).
- `Sessao.GerarSessaoSimulada`: inherits the same difference; for `passo < 0` and
  `horas > 0` it returns an error instead of an empty table.
- When there are no events, the exception pandas raises is an `Err` value.
- Defaults for `duracao_horas`, `seed` and `passo_min` are not modelled: callers pass
  them explicitly. A missing profile is the default profile (`Sessao.PerfilEmUso`).
- Reentrancy of the global random state and concurrency are not modelled.
