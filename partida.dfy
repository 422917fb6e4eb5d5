/** The match record, the player hands and the catalog as the engine's handlers
    see them, with the roster queries every handler shares. */
module Partida {
  import opened Util
  import opened Cartas

  type PlayerId = int
  type Code = int

  datatype Estado = Esperando | Seleccionando | Jugando | Finalizado

  /** One roster entry: the player, the cards they committed for play, and whether
      they are still in the match. */
  datatype Entrada = Entrada(jugadorId: PlayerId, selectedCards: seq<CardId>, activo: bool)

  /** One card played in the current round, with the attribute recorded with it
      (the HTTP flow may record none). */
  datatype Jugada = Jugada(jugadorId: PlayerId, cartaId: CardId, atributo: Option<Atributo>)

  datatype Juego = Juego(
    estado: Estado,
    maxPlayers: int,
    playCount: int,
    jugadores: seq<Entrada>,
    cartasEnBatalla: seq<Jugada>,
    turnoIdx: int,
    atributoActual: Option<Atributo>,
    ganadorId: Option<PlayerId>)

  /** Why a handler refused; every refusal leaves the stored state as it was. */
  datatype Error =
    | ParametrosFaltantes
    | IdInvalido
    | CodigoRepetido
    | JuegoNoExiste
    | JugadorNoEncontrado
    | PartidaLlena
    | YaComenzo
    | CartasInsuficientes
    | CantidadIncorrecta
    | CartaNoPertenece
    | NoEstaEnPartida
    | NoEnCurso
    | ErrorTurno
    | NoEsTuTurno
    | CartaNoSeleccionada
    | AtributoInvalido
    | NoEsAnfitrion
    | FaltanJugadores
    | YaJugo
    | NoTodosJugaron
    | ErrorInterno

  datatype Result<+T> = Ok(value: T) | Err(error: Error)

  /** The stored collections: matches by code, each player's hand, the card catalog
      (never written by the engine). */
  class Db {
    var juegos: map<Code, Juego>
    var manos: map<PlayerId, seq<CardId>>
    const catalogo: Catalogo

    constructor (catalogo: Catalogo, manos: map<PlayerId, seq<CardId>>)
      ensures this.catalogo == catalogo && this.manos == manos && juegos == map[]
    {
      this.catalogo := catalogo;
      this.manos := manos;
      juegos := map[];
    }
  }

  /** `jugadores.find(j => j.jugadorId === p)`, as the index of the first match. */
  function Buscar(jugadores: seq<Entrada>, p: PlayerId): (r: Option<nat>)
    ensures r.Some? ==> r.value < |jugadores| && jugadores[r.value].jugadorId == p
    ensures r.Some? ==> forall k :: 0 <= k < r.value ==> jugadores[k].jugadorId != p
    ensures r.None? <==> forall k :: 0 <= k < |jugadores| ==> jugadores[k].jugadorId != p
  {
    if jugadores == [] then None
    else if jugadores[0].jugadorId == p then Some(0)
    else match Buscar(jugadores[1..], p)
      case None => None
      case Some(i) => Some(i + 1)
  }

  /** Number of entries with `activo`: `jugadores.filter(j => j.activo).length`. */
  function Activos(jugadores: seq<Entrada>): (n: nat)
    ensures n <= |jugadores|
    ensures n == 0 <==> forall k :: 0 <= k < |jugadores| ==> !jugadores[k].activo
  {
    if jugadores == [] then 0
    else (if jugadores[0].activo then 1 else 0) + Activos(jugadores[1..])
  }

  /** Clearing one entry's `activo` lowers the count by one exactly when it was set. */
  lemma {:induction false} ActivosDesactivar(jugadores: seq<Entrada>, i: nat)
    requires i < |jugadores|
    ensures Activos(jugadores[i := jugadores[i].(activo := false)]) ==
      Activos(jugadores) - (if jugadores[i].activo then 1 else 0)
  {
    var nuevos := jugadores[i := jugadores[i].(activo := false)];
    if i > 0 {
      ActivosDesactivar(jugadores[1..], i - 1);
      assert nuevos[1..] == jugadores[1..][i - 1 := jugadores[i].(activo := false)];
    } else {
      assert nuevos[1..] == jugadores[1..];
    }
  }

  /** No player holds two roster entries. */
  ghost predicate RosterUnico(jugadores: seq<Entrada>)
  {
    forall i, j :: 0 <= i < j < |jugadores| ==> jugadores[i].jugadorId != jugadores[j].jugadorId
  }

  /** Every active entry has committed exactly `k` cards. */
  predicate TodosSeleccionaron(jugadores: seq<Entrada>, k: int)
  {
    forall i :: 0 <= i < |jugadores| && jugadores[i].activo ==> |jugadores[i].selectedCards| == k
  }

  /** `jugadores.filter(j => j.activo)`: the active entries, in roster order. */
  function FiltroActivos(jugadores: seq<Entrada>): (r: seq<Entrada>)
    ensures |r| == Activos(jugadores)
    ensures forall e :: e in r <==> e in jugadores && e.activo
  {
    if jugadores == [] then []
    else (if jugadores[0].activo then [jugadores[0]] else []) + FiltroActivos(jugadores[1..])
  }

  /** The selection check reads as the handler writes it: every entry of the
      filtered list has selected exactly `k` cards. */
  lemma {:induction false} TodosSeleccionaronFiltro(jugadores: seq<Entrada>, k: int)
    ensures TodosSeleccionaron(jugadores, k) <==>
      forall i :: 0 <= i < |FiltroActivos(jugadores)| ==> |FiltroActivos(jugadores)[i].selectedCards| == k
  {
    if jugadores != [] {
      var cabeza, resto := jugadores[0], jugadores[1..];
      TodosSeleccionaronFiltro(resto, k);
      TodosSeleccionaronCabeza(jugadores, k);
      var f, g := FiltroActivos(jugadores), FiltroActivos(resto);
      if cabeza.activo {
        assert f == [cabeza] + g;
        assert forall i :: 1 <= i < |f| ==> f[i] == g[i - 1];
        assert forall i :: 0 <= i < |g| ==> g[i] == f[i + 1];
      } else {
        assert f == g;
      }
    }
  }

  /** The check splits into the first entry and the rest of the roster. */
  lemma TodosSeleccionaronCabeza(jugadores: seq<Entrada>, k: int)
    requires jugadores != []
    ensures TodosSeleccionaron(jugadores, k) <==>
      (jugadores[0].activo ==> |jugadores[0].selectedCards| == k) && TodosSeleccionaron(jugadores[1..], k)
  {
    assert forall i :: 1 <= i < |jugadores| ==> jugadores[i] == jugadores[1..][i - 1];
  }

  /** The set of cards `p` played in `jugadas`. */
  ghost function Jugadas(jugadas: seq<Jugada>, p: PlayerId): set<CardId>
  {
    set i | 0 <= i < |jugadas| && jugadas[i].jugadorId == p :: jugadas[i].cartaId
  }

  /** One more play adds its card to its own player's set and to no other. */
  lemma JugadasPrefijo(jugadas: seq<Jugada>, k: nat, p: PlayerId)
    requires k < |jugadas|
    ensures Jugadas(jugadas[..k + 1], p) ==
      Jugadas(jugadas[..k], p) + (if jugadas[k].jugadorId == p then {jugadas[k].cartaId} else {})
  {
    var a, b := jugadas[..k + 1], jugadas[..k];
    assert forall i :: 0 <= i < k ==> a[i] == b[i];
  }

  /** No player has two cards in the round. */
  ghost predicate UnaJugadaPorJugador(jugadas: seq<Jugada>)
  {
    forall i, j :: 0 <= i < j < |jugadas| ==> jugadas[i].jugadorId != jugadas[j].jugadorId
  }
}
