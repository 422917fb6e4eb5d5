/** The real-time match flow: join, host start, card selection, turn-ordered play
    that resolves the round once every active player has played, and forfeit.
    Each handler is one atomic step on the stored collections. */
module Socket {
  import opened Util
  import opened Cartas
  import opened Partida
  import opened Ronda

  /** What a successful play led to: the turn passed on, or the round resolved
      with a winner, a tie, or no card the catalog knows. */
  datatype Desenlace = Turno(turnoIdx: nat) | Gana(ganadorId: PlayerId) | Empate | SinValores

  // ---------------------------------------------------------------- join

  /** The join checks, in the handler's order. */
  function RechazoUnirse(juegos: map<Code, Juego>, manos: map<PlayerId, seq<CardId>>,
                         catalogo: Catalogo, codigo: Code, p: PlayerId): (e: Option<Error>)
    ensures e.None? <==>
      && codigo in juegos
      && p in manos
      && (|juegos[codigo].jugadores| < juegos[codigo].maxPlayers || Buscar(juegos[codigo].jugadores, p).Some?)
      && juegos[codigo].estado == Esperando
      && (manos[p] == [] ==> |catalogo| >= 10)
    ensures codigo !in juegos ==> e == Some(JuegoNoExiste)
    ensures codigo in juegos && p !in manos ==> e == Some(JugadorNoEncontrado)
    ensures codigo in juegos && p in manos &&
      |juegos[codigo].jugadores| >= juegos[codigo].maxPlayers && Buscar(juegos[codigo].jugadores, p).None?
      ==> e == Some(PartidaLlena)
    ensures codigo in juegos && p in manos &&
      (|juegos[codigo].jugadores| < juegos[codigo].maxPlayers || Buscar(juegos[codigo].jugadores, p).Some?) &&
      juegos[codigo].estado != Esperando
      ==> e == Some(YaComenzo)
    ensures codigo in juegos && p in manos &&
      (|juegos[codigo].jugadores| < juegos[codigo].maxPlayers || Buscar(juegos[codigo].jugadores, p).Some?) &&
      juegos[codigo].estado == Esperando && manos[p] == [] && |catalogo| < 10
      ==> e == Some(CartasInsuficientes)
  {
    if codigo !in juegos then Some(JuegoNoExiste)
    else if p !in manos then Some(JugadorNoEncontrado)
    else
      var j := juegos[codigo];
      if |j.jugadores| >= j.maxPlayers && Buscar(j.jugadores, p).None? then Some(PartidaLlena)
      else if j.estado != Esperando then Some(YaComenzo)
      else if manos[p] == [] && |catalogo| < 10 then Some(CartasInsuficientes)
      else None
  }

  /** Join the match `codigo`. A player with an empty hand is dealt the first ten
      cards of `barajadas`, the shuffled catalog. A new player is appended to the
      roster; a returning one is marked active again. */
  method UnirseJuego(db: Db, codigo: Code, jugadorId: PlayerId, barajadas: seq<CardId>) returns (r: Result<()>)
    requires Barajado(barajadas, db.catalogo)
    modifies db
    ensures var e := RechazoUnirse(old(db.juegos), old(db.manos), db.catalogo, codigo, jugadorId);
      (r.Err? <==> e.Some?) && (r.Err? ==> r.error == e.value)
    ensures r.Err? ==> db.juegos == old(db.juegos) && db.manos == old(db.manos)
    ensures r.Ok? ==>
      var mano := old(db.manos)[jugadorId];
      && (mano != [] ==> db.manos == old(db.manos))
      && (mano == [] ==> db.manos == old(db.manos)[jugadorId := barajadas[..10]])
      && |db.manos[jugadorId]| >= 1
      && (mano == [] ==> |db.manos[jugadorId]| == 10 && Distintas(db.manos[jugadorId])
                         && forall c :: c in db.manos[jugadorId] ==> c in db.catalogo)
    ensures r.Ok? ==>
      var j := old(db.juegos)[codigo];
      && codigo in db.juegos
      && var js := db.juegos[codigo].jugadores;
      && db.juegos == old(db.juegos)[codigo := j.(jugadores := js)]
      && match Buscar(j.jugadores, jugadorId)
         case Some(i) => js == j.jugadores[i := j.jugadores[i].(activo := true)]
         case None => js == j.jugadores + [Entrada(jugadorId, [], true)]
    ensures r.Ok? ==> RosterUnico(old(db.juegos)[codigo].jugadores) ==> RosterUnico(db.juegos[codigo].jugadores)
    ensures r.Ok? ==> Buscar(db.juegos[codigo].jugadores, jugadorId).Some?
  {
    var e := RechazoUnirse(db.juegos, db.manos, db.catalogo, codigo, jugadorId);
    if e.Some? {
      return Err(e.value);
    }
    if db.manos[jugadorId] == [] {
      var mano := barajadas[..10];
      assert forall i, k :: 0 <= i < k < 10 ==> mano[i] == barajadas[i] && mano[k] == barajadas[k];
      db.manos := db.manos[jugadorId := mano];
    }
    var juego := db.juegos[codigo];
    match Buscar(juego.jugadores, jugadorId) {
      case None =>
        juego := juego.(jugadores := juego.jugadores + [Entrada(jugadorId, [], true)]);
        assert juego.jugadores[|juego.jugadores| - 1].jugadorId == jugadorId;
      case Some(i) =>
        juego := juego.(jugadores := juego.jugadores[i := juego.jugadores[i].(activo := true)]);
        assert juego.jugadores[i].jugadorId == jugadorId;
    }
    db.juegos := db.juegos[codigo := juego];
    r := Ok(());
  }

  // ---------------------------------------------------------------- selection

  function RechazoSeleccion(juegos: map<Code, Juego>, manos: map<PlayerId, seq<CardId>>,
                            codigo: Code, p: PlayerId, cartas: seq<CardId>): (e: Option<Error>)
    ensures e.None? <==>
      && codigo in juegos
      && |cartas| == juegos[codigo].playCount
      && p in manos
      && (forall c :: c in cartas ==> c in manos[p])
      && Buscar(juegos[codigo].jugadores, p).Some?
  {
    if codigo !in juegos then Some(JuegoNoExiste)
    else if |cartas| != juegos[codigo].playCount then Some(CantidadIncorrecta)
    else if p !in manos then Some(JugadorNoEncontrado)
    else if exists c :: c in cartas && c !in manos[p] then Some(CartaNoPertenece)
    else if Buscar(juegos[codigo].jugadores, p).None? then Some(NoEstaEnPartida)
    else None
  }

  /** Commit `cartas` as the player's selection; the match starts play once every
      active entry holds `playCount` cards while it is selecting. */
  method SeleccionarCartas(db: Db, codigo: Code, jugadorId: PlayerId, cartas: seq<CardId>) returns (r: Result<()>)
    modifies db
    ensures var e := RechazoSeleccion(old(db.juegos), old(db.manos), codigo, jugadorId, cartas);
      (r.Err? <==> e.Some?) && (r.Err? ==> r.error == e.value)
    ensures db.manos == old(db.manos)
    ensures r.Err? ==> db.juegos == old(db.juegos)
    ensures r.Ok? ==>
      var j := old(db.juegos)[codigo];
      var i := Buscar(j.jugadores, jugadorId).value;
      var js := j.jugadores[i := j.jugadores[i].(selectedCards := cartas)];
      && codigo in db.juegos
      && db.juegos == old(db.juegos)[codigo := j.(jugadores := js, estado := db.juegos[codigo].estado)]
      && (db.juegos[codigo].estado == Jugando <==>
            j.estado == Jugando || (j.estado == Seleccionando && TodosSeleccionaron(js, j.playCount)))
      && (db.juegos[codigo].estado != j.estado ==> j.estado == Seleccionando && db.juegos[codigo].estado == Jugando)
  {
    var e := RechazoSeleccion(db.juegos, db.manos, codigo, jugadorId, cartas);
    if e.Some? {
      return Err(e.value);
    }
    var juego := db.juegos[codigo];
    var i := Buscar(juego.jugadores, jugadorId).value;
    juego := juego.(jugadores := juego.jugadores[i := juego.jugadores[i].(selectedCards := cartas)]);
    if TodosSeleccionaron(juego.jugadores, juego.playCount) && juego.estado == Seleccionando {
      juego := juego.(estado := Jugando);
    }
    db.juegos := db.juegos[codigo := juego];
    r := Ok(());
  }

  // ---------------------------------------------------------------- turn order

  /** How many steps forward from `t`, going round a roster of `n` entries, index
      `i` lies: 1 for the entry after `t`, up to `n` for `t` itself. */
  function Distancia(t: int, i: int, n: int): int
  {
    if i > t then i - t else i - t + n
  }

  lemma ModSiguiente(s: int, n: int)
    requires 0 <= s < n
    ensures (s + 1) % n == if s + 1 < n then s + 1 else 0
  {
  }

  /** The next-turn search: the first active entry after `turnoIdx`, going round the
      roster; the entry right after `turnoIdx` when none is active. */
  method SiguienteTurno(jugadores: seq<Entrada>, turnoIdx: nat) returns (r: nat)
    requires turnoIdx < |jugadores|
    ensures r < |jugadores|
    ensures (exists k :: 0 <= k < |jugadores| && jugadores[k].activo) ==>
      && jugadores[r].activo
      && forall i :: 0 <= i < |jugadores| && Distancia(turnoIdx, i, |jugadores|) < Distancia(turnoIdx, r, |jugadores|)
           ==> !jugadores[i].activo
    ensures (forall k :: 0 <= k < |jugadores| ==> !jugadores[k].activo) ==> r == (turnoIdx + 1) % |jugadores|
  {
    var n := |jugadores|;
    ModSiguiente(turnoIdx, n);
    var siguiente := (turnoIdx + 1) % n;
    var intentos := 0;
    while !jugadores[siguiente].activo && intentos < n
      invariant 0 <= siguiente < n && 0 <= intentos <= n
      invariant intentos < n ==> Distancia(turnoIdx, siguiente, n) == intentos + 1
      invariant intentos == n ==> siguiente == (turnoIdx + 1) % n
      invariant forall i :: 0 <= i < n && Distancia(turnoIdx, i, n) <= intentos ==> !jugadores[i].activo
    {
      ModSiguiente(siguiente, n);
      siguiente := (siguiente + 1) % n;
      intentos := intentos + 1;
    }
    r := siguiente;
  }

  // ---------------------------------------------------------------- resolution

  /** The valued plays of a round, one loop step per play, skipping cards the
      catalog does not hold. */
  method CalcularValores(catalogo: Catalogo, jugadas: seq<Jugada>, a: Atributo) returns (vs: seq<Valorada>)
    ensures vs == Valores(catalogo, jugadas, a)
  {
    vs := [];
    for k := 0 to |jugadas|
      invariant vs == Valores(catalogo, jugadas[..k], a)
    {
      assert jugadas[..k + 1][..k] == jugadas[..k];
      var j := jugadas[k];
      if j.cartaId in catalogo {
        vs := vs + [Valorada(j.jugadorId, j.cartaId, Valor(catalogo[j.cartaId], a))];
      }
    }
    assert jugadas[..|jugadas|] == jugadas;
  }

  /** Every hand after each player's played cards are `$pull`ed from it: all
      occurrences of every card the owner played go. */
  ghost function Retiradas(manos: map<PlayerId, seq<CardId>>, jugadas: seq<Jugada>): map<PlayerId, seq<CardId>>
  {
    map p | p in manos :: Without(manos[p], Jugadas(jugadas, p))
  }

  lemma RetiradasNada(manos: map<PlayerId, seq<CardId>>)
    ensures Retiradas(manos, []) == manos
  {
    forall p | p in manos ensures Without(manos[p], Jugadas([], p)) == manos[p] {
      assert Jugadas([], p) == {};
      WithoutNada(manos[p]);
    }
  }

  /** Pulling one more play is one more `$pull` on that player's hand. */
  lemma RetiradasPaso(manos: map<PlayerId, seq<CardId>>, jugadas: seq<Jugada>, k: nat)
    requires k < |jugadas|
    ensures var j, m := jugadas[k], Retiradas(manos, jugadas[..k]);
      Retiradas(manos, jugadas[..k + 1]) ==
        if j.jugadorId in m then m[j.jugadorId := Without(m[j.jugadorId], {j.cartaId})] else m
  {
    var j, m := jugadas[k], Retiradas(manos, jugadas[..k]);
    var m' := Retiradas(manos, jugadas[..k + 1]);
    var esperado := if j.jugadorId in m then m[j.jugadorId := Without(m[j.jugadorId], {j.cartaId})] else m;
    forall p | p in manos ensures m'[p] == esperado[p] {
      RetiradasClave(manos, jugadas, k, p);
    }
    assert m'.Keys == esperado.Keys;
  }

  lemma RetiradasClave(manos: map<PlayerId, seq<CardId>>, jugadas: seq<Jugada>, k: nat, p: PlayerId)
    requires k < |jugadas| && p in manos
    ensures var antes := Retiradas(manos, jugadas[..k])[p];
      Retiradas(manos, jugadas[..k + 1])[p] ==
        if p == jugadas[k].jugadorId then Without(antes, {jugadas[k].cartaId}) else antes
  {
    var c := jugadas[k].cartaId;
    var a, b := Jugadas(jugadas[..k], p), Jugadas(jugadas[..k + 1], p);
    JugadasPrefijo(jugadas, k, p);
    assert Retiradas(manos, jugadas[..k])[p] == Without(manos[p], a);
    assert Retiradas(manos, jugadas[..k + 1])[p] == Without(manos[p], b);
    if p == jugadas[k].jugadorId {
      assert b == a + {c};
      WithoutWithout(manos[p], a, {c});
    } else {
      assert b == a;
    }
  }

  /** The `$pull` loop of the round: one update per play, on the player's hand. */
  method PullJugadas(manos: map<PlayerId, seq<CardId>>, jugadas: seq<Jugada>) returns (m: map<PlayerId, seq<CardId>>)
    ensures m == Retiradas(manos, jugadas)
  {
    m := manos;
    RetiradasNada(manos);
    assert jugadas[..0] == [];
    for k := 0 to |jugadas|
      invariant m == Retiradas(manos, jugadas[..k])
    {
      RetiradasPaso(manos, jugadas, k);
      var j := jugadas[k];
      if j.jugadorId in m {
        m := m[j.jugadorId := Without(m[j.jugadorId], {j.cartaId})];
      }
    }
    assert jugadas[..|jugadas|] == jugadas;
  }

  /** The outcome of resolving `jugadas` on attribute `a`: void when no played
      card is valued, won by the player of the one valued play strictly above
      every other, and tied when two valued plays share the maximum. */
  function Veredicto(catalogo: Catalogo, jugadas: seq<Jugada>, a: Atributo): (d: Desenlace)
    ensures !d.Turno?
    ensures d == SinValores <==> Valores(catalogo, jugadas, a) == []
    ensures d.Gana? ==> exists i :: 0 <= i < |jugadas| && jugadas[i].jugadorId == d.ganadorId
    ensures d.Gana? ==> var vs := Valores(catalogo, jugadas, a);
      exists k :: 0 <= k < |vs| && vs[k].jugadorId == d.ganadorId &&
        forall i :: 0 <= i < |vs| && i != k ==> vs[i].valor < vs[k].valor
    ensures d == Empate ==> var vs := Valores(catalogo, jugadas, a);
      vs != [] && exists i, j :: 0 <= i < j < |vs| && vs[i].valor == MaxValor(vs) && vs[j].valor == MaxValor(vs)
  {
    var vs := Valores(catalogo, jugadas, a);
    if vs == [] then SinValores
    else if |Ganadores(vs)| == 1 then
      GanadorEstricto(vs);
      ValoresMiembro(catalogo, jugadas, a);
      Gana(Ganadores(vs)[0].jugadorId)
    else
      EmpateSiDosMaximos(vs);
      Empate
  }

  /** The hands after the round: with a unique winner, every valued card is pushed
      onto the winner's hand and then each play is pulled from its own player's
      hand; otherwise no hand changes. */
  ghost function ManosTrasRonda(manos: map<PlayerId, seq<CardId>>, catalogo: Catalogo,
                                jugadas: seq<Jugada>, a: Atributo): map<PlayerId, seq<CardId>>
  {
    match Veredicto(catalogo, jugadas, a)
    case Gana(w) => Retiradas(Entregar(manos, w, CartasDe(Valores(catalogo, jugadas, a))), jugadas)
    case _ => manos
  }

  /** The match after the round: with a unique winner the battle is cleared and the
      match ends when the winner holds at least 70% of the catalog. */
  ghost function JuegoTrasRonda(j: Juego, manos: map<PlayerId, seq<CardId>>, catalogo: Catalogo, a: Atributo): Juego
  {
    match Veredicto(catalogo, j.cartasEnBatalla, a)
    case Gana(w) =>
      j.(cartasEnBatalla := [],
         estado := if w in manos && 10 * |manos[w]| >= 7 * |catalogo| then Finalizado else j.estado)
    case _ => j
  }

  /** Where the cards go in a won round. Every card a player with a record played
      is gone from that player's hand, the winner's own card included: it is pushed
      with the rest and then pulled. The winner otherwise keeps its cards and gains
      every valued card; any other player keeps the copies of every card it did not
      play, and a player without a play keeps its hand as it was. */
  lemma ManosTrasGanar(manos: map<PlayerId, seq<CardId>>, catalogo: Catalogo, jugadas: seq<Jugada>, a: Atributo, w: PlayerId)
    requires Veredicto(catalogo, jugadas, a) == Gana(w)
    ensures var m := ManosTrasRonda(manos, catalogo, jugadas, a);
      && m.Keys == manos.Keys
      && (forall k :: 0 <= k < |jugadas| && jugadas[k].jugadorId in manos ==>
            jugadas[k].cartaId !in m[jugadas[k].jugadorId])
      && (w in manos ==> forall c :: c in m[w] <==>
            (c in manos[w] || c in CartasDe(Valores(catalogo, jugadas, a))) && c !in Jugadas(jugadas, w))
      && (w in manos ==> forall c :: c !in Jugadas(jugadas, w) ==>
            multiset(m[w])[c] == multiset(manos[w])[c] + multiset(CartasDe(Valores(catalogo, jugadas, a)))[c])
      && (forall p, c :: p in manos && p != w && c !in Jugadas(jugadas, p) ==>
            multiset(m[p])[c] == multiset(manos[p])[c])
      && forall p :: p in manos && Jugadas(jugadas, p) == {} ==> m[p] == manos[p]
  {
    var cs := CartasDe(Valores(catalogo, jugadas, a));
    var e := Entregar(manos, w, cs);
    var m := ManosTrasRonda(manos, catalogo, jugadas, a);
    assert m == Retiradas(e, jugadas);
    assert forall p :: p in manos ==> m[p] == Without(e[p], Jugadas(jugadas, p));
    forall k | 0 <= k < |jugadas| && jugadas[k].jugadorId in manos
      ensures jugadas[k].cartaId !in m[jugadas[k].jugadorId]
    {
      assert jugadas[k].cartaId in Jugadas(jugadas, jugadas[k].jugadorId);
    }
    forall c | w in manos && c !in Jugadas(jugadas, w)
      ensures multiset(m[w])[c] == multiset(manos[w])[c] + multiset(cs)[c]
    {
      assert e[w] == manos[w] + cs;
      WithoutCuenta(e[w], Jugadas(jugadas, w), c);
    }
    forall p, c | p in manos && p != w && c !in Jugadas(jugadas, p)
      ensures multiset(m[p])[c] == multiset(manos[p])[c]
    {
      assert e[p] == manos[p];
      WithoutCuenta(manos[p], Jugadas(jugadas, p), c);
    }
    forall p | p in manos && Jugadas(jugadas, p) == {} ensures m[p] == manos[p] {
      var i :| 0 <= i < |jugadas| && jugadas[i].jugadorId == w;
      assert jugadas[i].cartaId in Jugadas(jugadas, w);
      assert e[p] == manos[p];
      WithoutNada(manos[p]);
    }
  }

  /** A two-player round in which the winner's card leaves the game: player 1 plays
      card 10 (fuerza 5) against player 2's card 20 (fuerza 3); player 1 ends with
      card 20 only and player 2 with nothing. */
  lemma RondaPierdeCarta()
    ensures var manos := map[1 := [10], 2 := [20]];
      var catalogo := map[10 := Carta(map[Fuerza := 5]), 20 := Carta(map[Fuerza := 3])];
      var jugadas := [Jugada(1, 10, Some(Fuerza)), Jugada(2, 20, Some(Fuerza))];
      && Veredicto(catalogo, jugadas, Fuerza) == Gana(1)
      && ManosTrasRonda(manos, catalogo, jugadas, Fuerza) == map[1 := [20], 2 := []]
  {
    var manos := map[1 := [10], 2 := [20]];
    var catalogo := map[10 := Carta(map[Fuerza := 5]), 20 := Carta(map[Fuerza := 3])];
    var jugadas := [Jugada(1, 10, Some(Fuerza)), Jugada(2, 20, Some(Fuerza))];
    var vs := Valores(catalogo, jugadas, Fuerza);
    assert vs == [Valorada(1, 10, 5), Valorada(2, 20, 3)] by {
      ValoresPuntual(catalogo, jugadas, Fuerza);
      assert Valor(catalogo[10], Fuerza) == 5 && Valor(catalogo[20], Fuerza) == 3;
    }
    assert Ganadores(vs) == [Valorada(1, 10, 5)] by {
      assert MaxValor(vs) == 5;
      assert vs[1..] == [Valorada(2, 20, 3)];
      assert ConValor(vs[1..][1..], 5) == [];
      assert ConValor(vs[1..], 5) == [];
    }
    assert CartasDe(vs) == [10, 20];
    var e := Entregar(manos, 1, [10, 20]);
    assert e == map[1 := [10, 10, 20], 2 := [20]] by {
      assert e.Keys == {1, 2} && e[1] == [10, 10, 20] && e[2] == [20];
    }
    RetiradasEjemplo(jugadas);
  }

  /** The pulls of that round: each player's played card leaves its hand. */
  lemma RetiradasEjemplo(jugadas: seq<Jugada>)
    requires jugadas == [Jugada(1, 10, Some(Fuerza)), Jugada(2, 20, Some(Fuerza))]
    ensures Retiradas(map[1 := [10, 10, 20], 2 := [20]], jugadas) == map[1 := [20], 2 := []]
  {
    var e := map[1 := [10, 10, 20], 2 := [20]];
    assert Jugadas(jugadas, 1) == {10} && Jugadas(jugadas, 2) == {20} by {
      assert jugadas[0].jugadorId == 1 && jugadas[1].jugadorId == 2;
    }
    assert Without([10, 10, 20], {10}) == [20] by {
      assert Without([20], {10}) == [20];
      assert [10, 10, 20][1..] == [10, 20] && [10, 20][1..] == [20];
    }
    assert Without([20], {20}) == [];
    var m := Retiradas(e, jugadas);
    assert m.Keys == {1, 2};
    assert m[1] == [20] && m[2] == [];
  }

  /** Resolve the round of `codigo` on attribute `a` (the attribute of the play
      that completed the round). */
  method ResolverRonda(db: Db, codigo: Code, a: Atributo) returns (d: Desenlace)
    requires codigo in db.juegos
    modifies db
    ensures var jugadas := old(db.juegos)[codigo].cartasEnBatalla;
      && d == Veredicto(db.catalogo, jugadas, a)
      && db.manos == ManosTrasRonda(old(db.manos), db.catalogo, jugadas, a)
      && db.juegos == old(db.juegos)[codigo := JuegoTrasRonda(old(db.juegos)[codigo], db.manos, db.catalogo, a)]
  {
    var juego := db.juegos[codigo];
    var jugadas := juego.cartasEnBatalla;
    var valores := CalcularValores(db.catalogo, jugadas, a);
    if |valores| == 0 {
      return SinValores;
    }
    var ganadores := Ganadores(valores);
    if |ganadores| == 1 {
      var ganador := ganadores[0].jugadorId;
      assert Veredicto(db.catalogo, jugadas, a) == Gana(ganador);
      var manos := Entregar(db.manos, ganador, CartasDe(valores));
      manos := PullJugadas(manos, jugadas);
      assert manos == ManosTrasRonda(old(db.manos), db.catalogo, jugadas, a);
      db.manos := manos;
      juego := juego.(cartasEnBatalla := []);
      if ganador in manos && 10 * |manos[ganador]| >= 7 * |db.catalogo| {
        juego := juego.(estado := Finalizado);
      }
      assert juego == JuegoTrasRonda(old(db.juegos)[codigo], manos, db.catalogo, a);
      db.juegos := db.juegos[codigo := juego];
      d := Gana(ganador);
    } else {
      d := Empate;
    }
  }

  // ---------------------------------------------------------------- play

  /** The play checks, in the handler's order. */
  function RechazoJugar(juegos: map<Code, Juego>, codigo: Code, p: PlayerId, cartaId: CardId, atributo: string): (e: Option<Error>)
    ensures e.None? <==>
      && atributo != ""
      && codigo in juegos
      && juegos[codigo].estado == Jugando
      && 0 <= juegos[codigo].turnoIdx < |juegos[codigo].jugadores|
      && juegos[codigo].jugadores[juegos[codigo].turnoIdx].jugadorId == p
      && cartaId in juegos[codigo].jugadores[Buscar(juegos[codigo].jugadores, p).value].selectedCards
      && ParseAtributo(atributo).Some?
  {
    if atributo == "" then Some(ParametrosFaltantes)
    else if codigo !in juegos then Some(JuegoNoExiste)
    else
      var j := juegos[codigo];
      if j.estado != Jugando then Some(NoEnCurso)
      else if !(0 <= j.turnoIdx < |j.jugadores|) then Some(ErrorTurno)
      else if j.jugadores[j.turnoIdx].jugadorId != p then Some(NoEsTuTurno)
      else
        // the turn holder is on the roster, so the entry lookup always succeeds
        var i := Buscar(j.jugadores, p).value;
        if cartaId !in j.jugadores[i].selectedCards then Some(CartaNoSeleccionada)
        else if ParseAtributo(atributo).None? then Some(AtributoInvalido)
        else None
  }

  /** The match right after an accepted play, before the round is resolved or the
      turn passes: the card leaves the player's selection (every copy of it) and
      one play joins the battle. */
  function TrasJugar(j: Juego, p: PlayerId, cartaId: CardId, a: Atributo): (k: Juego)
    requires Buscar(j.jugadores, p).Some?
    ensures |k.jugadores| == |j.jugadores|
    ensures k.cartasEnBatalla == j.cartasEnBatalla + [Jugada(p, cartaId, Some(a))]
    ensures cartaId !in k.jugadores[Buscar(j.jugadores, p).value].selectedCards
    ensures k.estado == j.estado && k.turnoIdx == j.turnoIdx && k.maxPlayers == j.maxPlayers
    ensures k.playCount == j.playCount && k.atributoActual == j.atributoActual && k.ganadorId == j.ganadorId
  {
    var i := Buscar(j.jugadores, p).value;
    var entrada := j.jugadores[i].(selectedCards := Without(j.jugadores[i].selectedCards, {cartaId}));
    j.(jugadores := j.jugadores[i := entrada], cartasEnBatalla := j.cartasEnBatalla + [Jugada(p, cartaId, Some(a))])
  }

  /** The play touches only the caller's entry, and there only the selection. */
  lemma TrasJugarResto(j: Juego, p: PlayerId, cartaId: CardId, a: Atributo)
    requires Buscar(j.jugadores, p).Some?
    ensures var k, i := TrasJugar(j, p, cartaId, a), Buscar(j.jugadores, p).value;
      && (forall x :: 0 <= x < |j.jugadores| && x != i ==> k.jugadores[x] == j.jugadores[x])
      && k.jugadores[i].jugadorId == p && k.jugadores[i].activo == j.jugadores[i].activo
      && forall c :: c in k.jugadores[i].selectedCards <==> c in j.jugadores[i].selectedCards && c != cartaId
  {
  }

  /** Play a card in turn. When the battle then holds at least as many plays as
      there are active players the round is resolved on this play's attribute;
      otherwise the turn passes to the next active entry. */
  method JugarCarta(db: Db, codigo: Code, jugadorId: PlayerId, cartaId: CardId, atributo: string)
    returns (r: Result<Desenlace>)
    modifies db
    ensures var e := RechazoJugar(old(db.juegos), codigo, jugadorId, cartaId, atributo);
      (r.Err? <==> e.Some?) && (r.Err? ==> r.error == e.value)
    ensures r.Err? ==> db.juegos == old(db.juegos) && db.manos == old(db.manos)
    ensures r.Ok? ==>
      var a := ParseAtributo(atributo).value;
      var j := TrasJugar(old(db.juegos)[codigo], jugadorId, cartaId, a);
      if |j.cartasEnBatalla| >= Activos(j.jugadores) then
        && r.value == Veredicto(db.catalogo, j.cartasEnBatalla, a)
        && db.manos == ManosTrasRonda(old(db.manos), db.catalogo, j.cartasEnBatalla, a)
        && db.juegos == old(db.juegos)[codigo := JuegoTrasRonda(j, db.manos, db.catalogo, a)]
      else
        && r.value.Turno?
        && db.manos == old(db.manos)
        && db.juegos == old(db.juegos)[codigo := j.(turnoIdx := r.value.turnoIdx)]
        && r.value.turnoIdx < |j.jugadores|
        && j.jugadores[r.value.turnoIdx].activo
        && forall i :: 0 <= i < |j.jugadores| &&
             Distancia(j.turnoIdx, i, |j.jugadores|) < Distancia(j.turnoIdx, r.value.turnoIdx, |j.jugadores|)
             ==> !j.jugadores[i].activo
  {
    var e := RechazoJugar(db.juegos, codigo, jugadorId, cartaId, atributo);
    if e.Some? {
      return Err(e.value);
    }
    var a := ParseAtributo(atributo).value;
    var juego := TrasJugar(db.juegos[codigo], jugadorId, cartaId, a);
    ghost var manos0 := db.manos;
    ghost var juegos0 := db.juegos;
    db.juegos := db.juegos[codigo := juego];
    if |juego.cartasEnBatalla| >= Activos(juego.jugadores) {
      var d := ResolverRonda(db, codigo, a);
      assert d == Veredicto(db.catalogo, juego.cartasEnBatalla, a);
      assert db.manos == ManosTrasRonda(manos0, db.catalogo, juego.cartasEnBatalla, a);
      assert db.juegos == juegos0[codigo := JuegoTrasRonda(juego, db.manos, db.catalogo, a)];
      r := Ok(d);
    } else {
      var siguiente := SiguienteTurno(juego.jugadores, juego.turnoIdx);
      db.juegos := db.juegos[codigo := juego.(turnoIdx := siguiente)];
      r := Ok(Turno(siguiente));
    }
  }

  // ---------------------------------------------------------------- start, forfeit

  function RechazoIniciar(juegos: map<Code, Juego>, codigo: Code, p: PlayerId): (e: Option<Error>)
    ensures e.None? <==>
      codigo in juegos && 2 <= |juegos[codigo].jugadores| && juegos[codigo].jugadores[0].jugadorId == p
  {
    if codigo !in juegos then Some(JuegoNoExiste)
    else
      var js := juegos[codigo].jugadores;
      if js == [] then Some(ErrorInterno)
      else if js[0].jugadorId != p then Some(NoEsAnfitrion)
      else if |js| < 2 then Some(FaltanJugadores)
      else None
  }

  /** The host (first roster entry) moves the match to card selection. */
  method IniciarJuego(db: Db, codigo: Code, jugadorId: PlayerId) returns (r: Result<()>)
    modifies db
    ensures var e := RechazoIniciar(old(db.juegos), codigo, jugadorId);
      (r.Err? <==> e.Some?) && (r.Err? ==> r.error == e.value)
    ensures db.manos == old(db.manos)
    ensures r.Err? ==> db.juegos == old(db.juegos)
    ensures r.Ok? ==> db.juegos == old(db.juegos)[codigo := old(db.juegos)[codigo].(estado := Seleccionando)]
  {
    var e := RechazoIniciar(db.juegos, codigo, jugadorId);
    if e.Some? {
      return Err(e.value);
    }
    db.juegos := db.juegos[codigo := db.juegos[codigo].(estado := Seleccionando)];
    r := Ok(());
  }

  function RechazoRendirse(juegos: map<Code, Juego>, codigo: Code, p: PlayerId): (e: Option<Error>)
    ensures e.None? <==> codigo in juegos && Buscar(juegos[codigo].jugadores, p).Some?
  {
    if codigo !in juegos then Some(JuegoNoExiste)
    else if Buscar(juegos[codigo].jugadores, p).None? then Some(NoEstaEnPartida)
    else None
  }

  /** Forfeit: the player's entry becomes inactive, and the match ends when exactly
      one active entry remains. */
  method Rendirse(db: Db, codigo: Code, jugadorId: PlayerId) returns (r: Result<()>)
    modifies db
    ensures var e := RechazoRendirse(old(db.juegos), codigo, jugadorId);
      (r.Err? <==> e.Some?) && (r.Err? ==> r.error == e.value)
    ensures db.manos == old(db.manos)
    ensures r.Err? ==> db.juegos == old(db.juegos)
    ensures r.Ok? ==>
      var j := old(db.juegos)[codigo];
      var i := Buscar(j.jugadores, jugadorId).value;
      var js := j.jugadores[i := j.jugadores[i].(activo := false)];
      && codigo in db.juegos
      && db.juegos == old(db.juegos)[codigo := j.(jugadores := js, estado := db.juegos[codigo].estado)]
      && db.juegos[codigo].estado == (if Activos(js) == 1 then Finalizado else j.estado)
      && Activos(js) == Activos(j.jugadores) - (if j.jugadores[i].activo then 1 else 0)
  {
    var e := RechazoRendirse(db.juegos, codigo, jugadorId);
    if e.Some? {
      return Err(e.value);
    }
    var juego := db.juegos[codigo];
    var i := Buscar(juego.jugadores, jugadorId).value;
    var antes := juego.jugadores;
    juego := juego.(jugadores := juego.jugadores[i := juego.jugadores[i].(activo := false)]);
    ActivosDesactivar(antes, i);
    if Activos(juego.jugadores) == 1 {
      juego := juego.(estado := Finalizado);
    }
    db.juegos := db.juegos[codigo := juego];
    r := Ok(());
  }
}
