/** The REST match controller: create a match record, add a player to its roster,
    and close it with a winner. */
module JuegoController {
  import opened Util
  import opened Cartas
  import opened Partida
  import Socket

  /** Sizes used when the request leaves them out. */
  const MaxPlayersPorDefecto := 6
  const PlayCountPorDefecto := 4

  /** The record `crearJuego` builds: an empty match waiting for players, with the
      requested sizes or their defaults. */
  function NuevoJuego(maxPlayers: Option<int>, playCount: Option<int>): (j: Juego)
    ensures j.estado == Esperando
    ensures j.jugadores == [] && j.cartasEnBatalla == [] && j.turnoIdx == 0
    ensures j.atributoActual.None? && j.ganadorId.None?
    ensures maxPlayers.None? ==> j.maxPlayers == 6
    ensures playCount.None? ==> j.playCount == 4
    ensures maxPlayers.Some? ==> j.maxPlayers == maxPlayers.value
    ensures playCount.Some? ==> j.playCount == playCount.value
  {
    Juego(Esperando,
          match maxPlayers case Some(m) => m case None => MaxPlayersPorDefecto,
          match playCount case Some(k) => k case None => PlayCountPorDefecto,
          [], [], 0, None, None)
  }

  /** A freshly created match with room for at least one player admits any known
      player through the real-time join, as long as it can be dealt a hand. */
  lemma NuevoJuegoAdmite(juegos: map<Code, Juego>, manos: map<PlayerId, seq<CardId>>, catalogo: Catalogo,
                         codigo: Code, maxPlayers: Option<int>, playCount: Option<int>, p: PlayerId)
    requires maxPlayers.None? || maxPlayers.value > 0
    requires p in manos && (manos[p] == [] ==> |catalogo| >= 10)
    ensures Socket.RechazoUnirse(juegos[codigo := NuevoJuego(maxPlayers, playCount)], manos, catalogo, codigo, p).None?
  {
  }

  /** Create the match `codigo`. The code is drawn at random by the handler, so it is
      a parameter here; a code already in use breaks the unique index and the save
      fails. */
  method CrearJuego(db: Db, codigo: Code, maxPlayers: Option<int>, playCount: Option<int>) returns (r: Result<Juego>)
    modifies db
    ensures r.Err? <==> codigo in old(db.juegos)
    ensures r.Err? ==> r.error == CodigoRepetido && db.juegos == old(db.juegos)
    ensures r.Ok? ==> r.value == NuevoJuego(maxPlayers, playCount) && db.juegos == old(db.juegos)[codigo := r.value]
    ensures db.manos == old(db.manos)
  {
    if codigo in db.juegos {
      return Err(CodigoRepetido);
    }
    var juego := NuevoJuego(maxPlayers, playCount);
    db.juegos := db.juegos[codigo := juego];
    r := Ok(juego);
  }

  /** The roster after the REST join: unchanged when the player is already in it,
      otherwise one active entry with no selection appended at the end. */
  function ConJugador(jugadores: seq<Entrada>, p: PlayerId): (js: seq<Entrada>)
    ensures Buscar(js, p).Some?
    ensures Buscar(jugadores, p).Some? ==> js == jugadores
    ensures Buscar(jugadores, p).None? ==> |js| == |jugadores| + 1 && js[..|jugadores|] == jugadores
    ensures Buscar(jugadores, p).None? ==> js[|jugadores|] == Entrada(p, [], true)
    ensures RosterUnico(jugadores) ==> RosterUnico(js)
  {
    if Buscar(jugadores, p).Some? then jugadores
    else
      var js := jugadores + [Entrada(p, [], true)];
      assert js[|jugadores|].jugadorId == p;
      assert js[..|jugadores|] == jugadores;
      js
  }

  /** Joining twice is joining once. */
  lemma ConJugadorIdempotente(jugadores: seq<Entrada>, p: PlayerId)
    ensures ConJugador(ConJugador(jugadores, p), p) == ConJugador(jugadores, p)
  {
  }

  function RechazoUnirse(juegos: map<Code, Juego>, codigo: Code, jugadorId: Option<PlayerId>): (e: Option<Error>)
    ensures e.None? <==> jugadorId.Some? && codigo in juegos
    ensures jugadorId.None? ==> e == Some(IdInvalido)
  {
    if jugadorId.None? then Some(IdInvalido)
    else if codigo !in juegos then Some(JuegoNoExiste)
    else None
  }

  /** Add a player to the roster of `codigo`. An id that is not a valid object id
      is `None`. There is no capacity check and no phase check. */
  method UnirseJuego(db: Db, codigo: Code, jugadorId: Option<PlayerId>) returns (r: Result<Juego>)
    modifies db
    ensures var e := RechazoUnirse(old(db.juegos), codigo, jugadorId);
      (r.Err? <==> e.Some?) && (r.Err? ==> r.error == e.value)
    ensures db.manos == old(db.manos)
    ensures r.Err? ==> db.juegos == old(db.juegos)
    ensures r.Ok? ==>
      var j := old(db.juegos)[codigo];
      && r.value == j.(jugadores := ConJugador(j.jugadores, jugadorId.value))
      && db.juegos == old(db.juegos)[codigo := r.value]
  {
    var e := RechazoUnirse(db.juegos, codigo, jugadorId);
    if e.Some? {
      return Err(e.value);
    }
    var juego := db.juegos[codigo];
    var p := jugadorId.value;
    if Buscar(juego.jugadores, p).Some? {
      return Ok(juego);
    }
    juego := juego.(jugadores := juego.jugadores + [Entrada(p, [], true)]);
    db.juegos := db.juegos[codigo := juego];
    r := Ok(juego);
  }

  /** Close the match `codigo` with the given winner (absent when the request names
      none), whatever state it was in. */
  method FinalizarJuego(db: Db, codigo: Code, ganadorId: Option<PlayerId>) returns (r: Result<Juego>)
    modifies db
    ensures r.Err? <==> codigo !in old(db.juegos)
    ensures r.Err? ==> r.error == JuegoNoExiste && db.juegos == old(db.juegos)
    ensures r.Ok? ==>
      && r.value == old(db.juegos)[codigo].(estado := Finalizado, ganadorId := ganadorId)
      && db.juegos == old(db.juegos)[codigo := r.value]
    ensures db.manos == old(db.manos)
  {
    if codigo !in db.juegos {
      return Err(JuegoNoExiste);
    }
    var juego := db.juegos[codigo].(estado := Finalizado, ganadorId := ganadorId);
    db.juegos := db.juegos[codigo := juego];
    r := Ok(juego);
  }
}
