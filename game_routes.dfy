/** The HTTP round flow: the turn holder names the attribute, each player plays
    one selected card (in any order), and an explicit call resolves the round. */
module GameRoutes {
  import opened Util
  import opened Cartas
  import opened Partida
  import opened Ronda

  /** A resolved round: a unique winner, or a tie that names a new attribute. */
  datatype Desenlace = Gana(ganadorId: PlayerId) | Empate(nuevoAtributo: Atributo)

  // ---------------------------------------------------------------- attribute

  function RechazoAtributo(juegos: map<Code, Juego>, codigo: Code, p: PlayerId, atributo: string): (e: Option<Error>)
    ensures e.None? <==>
      && codigo in juegos
      && juegos[codigo].estado == Jugando
      && 0 <= juegos[codigo].turnoIdx < |juegos[codigo].jugadores|
      && juegos[codigo].jugadores[juegos[codigo].turnoIdx].jugadorId == p
      && ParseAtributo(atributo).Some?
  {
    if codigo !in juegos || juegos[codigo].estado != Jugando then Some(NoEnCurso)
    else
      var j := juegos[codigo];
      // an index past the roster makes the turn lookup throw
      if !(0 <= j.turnoIdx < |j.jugadores|) then Some(ErrorInterno)
      else if j.jugadores[j.turnoIdx].jugadorId != p then Some(NoEsTuTurno)
      else if ParseAtributo(atributo).None? then Some(AtributoInvalido)
      else None
  }

  /** The turn holder sets the round's attribute. */
  method SeleccionarAtributo(db: Db, codigo: Code, jugadorId: PlayerId, atributo: string) returns (r: Result<Atributo>)
    modifies db
    ensures var e := RechazoAtributo(old(db.juegos), codigo, jugadorId, atributo);
      (r.Err? <==> e.Some?) && (r.Err? ==> r.error == e.value)
    ensures db.manos == old(db.manos)
    ensures r.Err? ==> db.juegos == old(db.juegos)
    ensures r.Ok? ==> Nombre(r.value) == atributo
    ensures r.Ok? ==> db.juegos == old(db.juegos)[codigo := old(db.juegos)[codigo].(atributoActual := Some(r.value))]
  {
    var e := RechazoAtributo(db.juegos, codigo, jugadorId, atributo);
    if e.Some? {
      return Err(e.value);
    }
    var a := ParseAtributo(atributo).value;
    db.juegos := db.juegos[codigo := db.juegos[codigo].(atributoActual := Some(a))];
    r := Ok(a);
  }

  // ---------------------------------------------------------------- play

  function RechazoJugar(juegos: map<Code, Juego>, codigo: Code, p: PlayerId, cartaId: CardId): (e: Option<Error>)
    ensures e.None? <==>
      && codigo in juegos
      && juegos[codigo].estado == Jugando
      && (forall k :: 0 <= k < |juegos[codigo].cartasEnBatalla| ==> juegos[codigo].cartasEnBatalla[k].jugadorId != p)
      && Buscar(juegos[codigo].jugadores, p).Some?
      && cartaId in juegos[codigo].jugadores[Buscar(juegos[codigo].jugadores, p).value].selectedCards
  {
    if codigo !in juegos || juegos[codigo].estado != Jugando then Some(NoEnCurso)
    else
      var j := juegos[codigo];
      if exists k :: 0 <= k < |j.cartasEnBatalla| && j.cartasEnBatalla[k].jugadorId == p then Some(YaJugo)
      else if Buscar(j.jugadores, p).None? then Some(CartaNoSeleccionada)
      else if cartaId !in j.jugadores[Buscar(j.jugadores, p).value].selectedCards then Some(CartaNoSeleccionada)
      else None
  }

  /** Play a selected card, once per round, under the current attribute; there is
      no turn check and the selection is left as it is. */
  method JugarCarta(db: Db, codigo: Code, jugadorId: PlayerId, cartaId: CardId) returns (r: Result<()>)
    modifies db
    ensures var e := RechazoJugar(old(db.juegos), codigo, jugadorId, cartaId);
      (r.Err? <==> e.Some?) && (r.Err? ==> r.error == e.value)
    ensures db.manos == old(db.manos)
    ensures r.Err? ==> db.juegos == old(db.juegos)
    ensures r.Ok? ==>
      var j := old(db.juegos)[codigo];
      db.juegos == old(db.juegos)[codigo :=
        j.(cartasEnBatalla := j.cartasEnBatalla + [Jugada(jugadorId, cartaId, j.atributoActual)])]
    ensures r.Ok? ==> UnaJugadaPorJugador(old(db.juegos)[codigo].cartasEnBatalla) ==>
      UnaJugadaPorJugador(db.juegos[codigo].cartasEnBatalla)
  {
    var e := RechazoJugar(db.juegos, codigo, jugadorId, cartaId);
    if e.Some? {
      return Err(e.value);
    }
    var juego := db.juegos[codigo];
    juego := juego.(cartasEnBatalla := juego.cartasEnBatalla + [Jugada(jugadorId, cartaId, juego.atributoActual)]);
    db.juegos := db.juegos[codigo := juego];
    r := Ok(());
  }

  // ---------------------------------------------------------------- resolution

  /** The hands after the losers' loop: each play of a player other than `w` who
      has a record removes one occurrence of its card, in play order. */
  ghost function Despojadas(manos: map<PlayerId, seq<CardId>>, jugadas: seq<Jugada>, w: PlayerId): (m: map<PlayerId, seq<CardId>>)
    ensures m.Keys == manos.Keys
    ensures w in manos ==> m[w] == manos[w]
  {
    if jugadas == [] then manos
    else
      var n := |jugadas| - 1;
      var j := jugadas[n];
      var m := Despojadas(manos, jugadas[..n], w);
      if j.jugadorId != w && j.jugadorId in m then m[j.jugadorId := RemoveFirst(m[j.jugadorId], j.cartaId)] else m
  }

  /** A player without a play in the round keeps its hand. */
  lemma {:induction false} DespojadasSinJugada(manos: map<PlayerId, seq<CardId>>, jugadas: seq<Jugada>, w: PlayerId, p: PlayerId)
    requires p in manos
    requires forall k :: 0 <= k < |jugadas| ==> jugadas[k].jugadorId != p
    ensures Despojadas(manos, jugadas, w)[p] == manos[p]
  {
    if jugadas != [] {
      var n := |jugadas| - 1;
      assert jugadas[n].jugadorId != p;
      DespojadasSinJugada(manos, jugadas[..n], w, p);
    }
  }

  /** With one play per player, a loser who has a record loses exactly one
      occurrence of the card it played. */
  lemma {:induction false} DespojadasUnaVez(manos: map<PlayerId, seq<CardId>>, jugadas: seq<Jugada>, w: PlayerId, k: nat)
    requires UnaJugadaPorJugador(jugadas)
    requires k < |jugadas| && jugadas[k].jugadorId != w && jugadas[k].jugadorId in manos
    ensures Despojadas(manos, jugadas, w)[jugadas[k].jugadorId] == RemoveFirst(manos[jugadas[k].jugadorId], jugadas[k].cartaId)
  {
    var n := |jugadas| - 1;
    var p := jugadas[k].jugadorId;
    var previas := jugadas[..n];
    var m := Despojadas(manos, previas, w);
    if k == n {
      forall i | 0 <= i < n ensures previas[i].jugadorId != p {
        assert previas[i] == jugadas[i];
      }
      DespojadasSinJugada(manos, previas, w, p);
    } else {
      assert previas[k] == jugadas[k];
      assert jugadas[n].jugadorId != p;
      forall i, i' | 0 <= i < i' < n ensures previas[i].jugadorId != previas[i'].jugadorId {
        assert previas[i] == jugadas[i] && previas[i'] == jugadas[i'];
      }
      DespojadasUnaVez(manos, previas, w, k);
    }
  }

  /** The roster after the loop: the entry `find` returns for each player loses
      every copy of the cards that player played; other entries stay. */
  ghost function SinSeleccion(jugadores: seq<Entrada>, jugadas: seq<Jugada>): (js: seq<Entrada>)
    ensures |js| == |jugadores|
    ensures forall i :: 0 <= i < |js| ==> js[i] == EntradaSin(jugadores, jugadas, i)
  {
    seq(|jugadores|, i requires 0 <= i < |jugadores| => EntradaSin(jugadores, jugadas, i))
  }

  ghost function EntradaSin(jugadores: seq<Entrada>, jugadas: seq<Jugada>, i: nat): Entrada
    requires i < |jugadores|
  {
    if Buscar(jugadores, jugadores[i].jugadorId) == Some(i)
    then jugadores[i].(selectedCards := Without(jugadores[i].selectedCards, Jugadas(jugadas, jugadores[i].jugadorId)))
    else jugadores[i]
  }

  /** `find` sees only the ids, so two rosters with the same ids answer alike. */
  lemma {:induction false} BuscarMismosIds(a: seq<Entrada>, b: seq<Entrada>, p: PlayerId)
    requires |a| == |b| && forall i :: 0 <= i < |a| ==> a[i].jugadorId == b[i].jugadorId
    ensures Buscar(a, p) == Buscar(b, p)
  {
    if a != [] {
      BuscarMismosIds(a[1..], b[1..], p);
    }
  }

  lemma SinSeleccionNada(jugadores: seq<Entrada>)
    ensures SinSeleccion(jugadores, []) == jugadores
  {
    forall i | 0 <= i < |jugadores| ensures SinSeleccion(jugadores, [])[i] == jugadores[i] {
      assert Jugadas([], jugadores[i].jugadorId) == {};
      WithoutNada(jugadores[i].selectedCards);
    }
  }

  /** One step of the roster loop: the entry `find` returns for `p` drops
      every copy of `c` from its selection. */
  function Quitar(jugadores: seq<Entrada>, p: PlayerId, c: CardId): (js: seq<Entrada>)
    ensures |js| == |jugadores|
    ensures forall i :: 0 <= i < |js| ==> js[i].jugadorId == jugadores[i].jugadorId && js[i].activo == jugadores[i].activo
    ensures forall i :: 0 <= i < |js| && Buscar(jugadores, p) != Some(i) ==> js[i] == jugadores[i]
    ensures forall i :: 0 <= i < |js| && Buscar(jugadores, p) == Some(i) ==>
      js[i].selectedCards == Without(jugadores[i].selectedCards, {c})
  {
    match Buscar(jugadores, p)
    case Some(i) => jugadores[i := jugadores[i].(selectedCards := Without(jugadores[i].selectedCards, {c}))]
    case None => jugadores
  }

  lemma SinSeleccionPaso(jugadores: seq<Entrada>, jugadas: seq<Jugada>, k: nat)
    requires k < |jugadas|
    ensures SinSeleccion(jugadores, jugadas[..k + 1]) ==
      Quitar(SinSeleccion(jugadores, jugadas[..k]), jugadas[k].jugadorId, jugadas[k].cartaId)
  {
    var j, js := jugadas[k], SinSeleccion(jugadores, jugadas[..k]);
    var js' := SinSeleccion(jugadores, jugadas[..k + 1]);
    var esperado := Quitar(js, j.jugadorId, j.cartaId);
    BuscarMismosIds(js, jugadores, j.jugadorId);
    forall i | 0 <= i < |jugadores| ensures js'[i] == esperado[i] {
      SinSeleccionEntrada(jugadores, jugadas, k, i);
    }
  }

  lemma SinSeleccionEntrada(jugadores: seq<Entrada>, jugadas: seq<Jugada>, k: nat, i: nat)
    requires k < |jugadas| && i < |jugadores|
    requires Buscar(SinSeleccion(jugadores, jugadas[..k]), jugadas[k].jugadorId) == Buscar(jugadores, jugadas[k].jugadorId)
    ensures SinSeleccion(jugadores, jugadas[..k + 1])[i] ==
      Quitar(SinSeleccion(jugadores, jugadas[..k]), jugadas[k].jugadorId, jugadas[k].cartaId)[i]
  {
    var j := jugadas[k];
    var p := jugadores[i].jugadorId;
    var antes := EntradaSin(jugadores, jugadas[..k], i);
    var despues := EntradaSin(jugadores, jugadas[..k + 1], i);
    EntradaSinPaso(jugadores, jugadas, k, i);
    if Buscar(jugadores, j.jugadorId) == Some(i) {
      assert despues == antes.(selectedCards := Without(antes.selectedCards, {j.cartaId}));
    } else {
      assert despues == antes;
    }
  }

  lemma EntradaSinPaso(jugadores: seq<Entrada>, jugadas: seq<Jugada>, k: nat, i: nat)
    requires k < |jugadas| && i < |jugadores|
    ensures var antes, despues := EntradaSin(jugadores, jugadas[..k], i), EntradaSin(jugadores, jugadas[..k + 1], i);
      despues == if Buscar(jugadores, jugadas[k].jugadorId) == Some(i)
        then antes.(selectedCards := Without(antes.selectedCards, {jugadas[k].cartaId}))
        else antes
  {
    var j := jugadas[k];
    var p := jugadores[i].jugadorId;
    var sel := jugadores[i].selectedCards;
    var antes, despues := EntradaSin(jugadores, jugadas[..k], i), EntradaSin(jugadores, jugadas[..k + 1], i);
    var a, b := Jugadas(jugadas[..k], p), Jugadas(jugadas[..k + 1], p);
    JugadasPrefijo(jugadas, k, p);
    if Buscar(jugadores, p) != Some(i) {
      assert antes == jugadores[i] && despues == jugadores[i];
      assert Buscar(jugadores, j.jugadorId) != Some(i);
    } else if p != j.jugadorId {
      assert b == a;
      assert antes == jugadores[i].(selectedCards := Without(sel, a));
      assert despues == jugadores[i].(selectedCards := Without(sel, b));
      assert Buscar(jugadores, j.jugadorId) != Some(i);
    } else {
      assert b == a + {j.cartaId};
      WithoutWithout(sel, a, {j.cartaId});
      assert antes == jugadores[i].(selectedCards := Without(sel, a));
      assert despues == jugadores[i].(selectedCards := Without(sel, b));
    }
  }

  /** The losers' loop: one occurrence of each loser's card is spliced out of its
      hand, and every player's entry drops the played card from its selection. The
      loop walks the plays; the valued list it walks in the handler holds the
      same players and cards in the same order. */
  method QuitarPerdedores(manos: map<PlayerId, seq<CardId>>, jugadores: seq<Entrada>, jugadas: seq<Jugada>, w: PlayerId)
    returns (m: map<PlayerId, seq<CardId>>, js: seq<Entrada>)
    ensures m == Despojadas(manos, jugadas, w)
    ensures js == SinSeleccion(jugadores, jugadas)
  {
    m, js := manos, jugadores;
    SinSeleccionNada(jugadores);
    assert jugadas[..0] == [];
    for k := 0 to |jugadas|
      invariant m == Despojadas(manos, jugadas[..k], w)
      invariant js == SinSeleccion(jugadores, jugadas[..k])
    {
      var j := jugadas[k];
      assert jugadas[..k + 1][..k] == jugadas[..k];
      SinSeleccionPaso(jugadores, jugadas, k);
      if j.jugadorId != w && j.jugadorId in m {
        m := m[j.jugadorId := RemoveFirst(m[j.jugadorId], j.cartaId)];
      }
      js := Quitar(js, j.jugadorId, j.cartaId);
    }
    assert jugadas[..|jugadas|] == jugadas;
  }

  /** Where the cards go in a won round, with one play per player and every card in
      the catalog. The winner's hand gains every played card, in play order, and
      keeps its own: the winner's card ends up in its hand once more than before.
      Each loser with a record gives up exactly one copy of its card, and a player
      without a play keeps its hand. */
  lemma ReparteRonda(manos: map<PlayerId, seq<CardId>>, catalogo: Catalogo, jugadas: seq<Jugada>, a: Atributo)
    requires UnaJugadaPorJugador(jugadas)
    requires forall k :: 0 <= k < |jugadas| ==> jugadas[k].cartaId in catalogo
    requires |Ganadores(Valores(catalogo, jugadas, a))| == 1
    ensures var vs := Valores(catalogo, jugadas, a);
      var w := Ganadores(vs)[0].jugadorId;
      var m := Despojadas(Entregar(manos, w, CartasDe(vs)), jugadas, w);
      && m.Keys == manos.Keys
      && |CartasDe(vs)| == |jugadas|
      && (forall k :: 0 <= k < |jugadas| ==> CartasDe(vs)[k] == jugadas[k].cartaId)
      && (w in manos ==> m[w] == manos[w] + CartasDe(vs))
      && (forall k :: 0 <= k < |jugadas| && jugadas[k].jugadorId != w && jugadas[k].jugadorId in manos ==>
            m[jugadas[k].jugadorId] == RemoveFirst(manos[jugadas[k].jugadorId], jugadas[k].cartaId))
      && forall p :: p in manos && (forall k :: 0 <= k < |jugadas| ==> jugadas[k].jugadorId != p) ==> m[p] == manos[p]
  {
    var vs := Valores(catalogo, jugadas, a);
    var w := Ganadores(vs)[0].jugadorId;
    var e := Entregar(manos, w, CartasDe(vs));
    ValoresPuntual(catalogo, jugadas, a);
    forall k | 0 <= k < |jugadas| && jugadas[k].jugadorId != w && jugadas[k].jugadorId in manos
      ensures Despojadas(e, jugadas, w)[jugadas[k].jugadorId] == RemoveFirst(manos[jugadas[k].jugadorId], jugadas[k].cartaId)
    {
      DespojadasUnaVez(e, jugadas, w, k);
    }
    forall p | p in manos && (forall k :: 0 <= k < |jugadas| ==> jugadas[k].jugadorId != p)
      ensures Despojadas(e, jugadas, w)[p] == manos[p]
    {
      DespojadasSinJugada(e, jugadas, w, p);
    }
  }

  /** A two-player round in which the winner's card is duplicated: player 1 plays
      card 10 (fuerza 5) against player 2's card 20 (fuerza 3); player 1 ends with
      cards 10, 10 and 20 and player 2 with nothing. */
  lemma RondaDuplicaCarta()
    ensures var manos := map[1 := [10], 2 := [20]];
      var catalogo := map[10 := Carta(map[Fuerza := 5]), 20 := Carta(map[Fuerza := 3])];
      var jugadas := [Jugada(1, 10, Some(Fuerza)), Jugada(2, 20, Some(Fuerza))];
      var vs := Valores(catalogo, jugadas, Fuerza);
      && Ganadores(vs) == [Valorada(1, 10, 5)]
      && Despojadas(Entregar(manos, 1, CartasDe(vs)), jugadas, 1) == map[1 := [10, 10, 20], 2 := []]
  {
    var manos := map[1 := [10], 2 := [20]];
    var catalogo := map[10 := Carta(map[Fuerza := 5]), 20 := Carta(map[Fuerza := 3])];
    var jugadas := [Jugada(1, 10, Some(Fuerza)), Jugada(2, 20, Some(Fuerza))];
    var vs := Valores(catalogo, jugadas, Fuerza);
    assert vs == [Valorada(1, 10, 5), Valorada(2, 20, 3)] by {
      ValoresPuntual(catalogo, jugadas, Fuerza);
      assert Valor(catalogo[10], Fuerza) == 5 && Valor(catalogo[20], Fuerza) == 3;
    }
    assert Ganadores(vs) == [Valorada(1, 10, 5)] by {
      assert MaxValor(vs) == 5;
      assert vs[1..] == [Valorada(2, 20, 3)];
      assert ConValor(vs[1..][1..], 5) == [];
      assert ConValor(vs[1..], 5) == [];
    }
    assert CartasDe(vs) == [10, 20];
    var e := Entregar(manos, 1, [10, 20]);
    assert e == map[1 := [10, 10, 20], 2 := [20]] by {
      assert e.Keys == {1, 2} && e[1] == [10, 10, 20] && e[2] == [20];
    }
    assert UnaJugadaPorJugador(jugadas);
    DespojadasUnaVez(e, jugadas, 1, 1);
    assert RemoveFirst([20], 20) == [];
    var m := Despojadas(e, jugadas, 1);
    assert m == map[1 := [10, 10, 20], 2 := []] by {
      assert m.Keys == {1, 2} && m[1] == [10, 10, 20] && m[2] == [];
    }
  }

  function RechazoResolver(juegos: map<Code, Juego>, catalogo: Catalogo, codigo: Code): (e: Option<Error>)
    ensures e.None? <==>
      && codigo in juegos
      && juegos[codigo].estado == Jugando
      && juegos[codigo].atributoActual.Some?
      && |juegos[codigo].cartasEnBatalla| >= Activos(juegos[codigo].jugadores)
      && forall k :: 0 <= k < |juegos[codigo].cartasEnBatalla| ==> juegos[codigo].cartasEnBatalla[k].cartaId in catalogo
  {
    if codigo !in juegos || juegos[codigo].estado != Jugando then Some(NoEnCurso)
    else
      var j := juegos[codigo];
      if j.atributoActual.None? || |j.cartasEnBatalla| < Activos(j.jugadores) then Some(NoTodosJugaron)
      // a played card missing from the catalog makes the valuation throw
      else if exists k :: 0 <= k < |j.cartasEnBatalla| && j.cartasEnBatalla[k].cartaId !in catalogo then Some(ErrorInterno)
      else None
  }

  /** Resolve the round on the current attribute. A unique winner receives every
      played card, each loser gives up one copy of its card, and the battle and
      the attribute are cleared; on a tie only the attribute changes, to `nuevo`. */
  method ResolverRonda(db: Db, codigo: Code, nuevo: Atributo) returns (r: Result<Desenlace>)
    modifies db
    ensures var e := RechazoResolver(old(db.juegos), db.catalogo, codigo);
      (r.Err? <==> e.Some?) && (r.Err? ==> r.error == e.value)
    ensures r.Err? ==> db.juegos == old(db.juegos) && db.manos == old(db.manos)
    ensures r.Ok? ==>
      var j := old(db.juegos)[codigo];
      var vs := Valores(db.catalogo, j.cartasEnBatalla, j.atributoActual.value);
      if |Ganadores(vs)| == 1 then
        var w := Ganadores(vs)[0].jugadorId;
        && r.value == Gana(w)
        && db.manos == Despojadas(Entregar(old(db.manos), w, CartasDe(vs)), j.cartasEnBatalla, w)
        && db.juegos == old(db.juegos)[codigo := j.(jugadores := SinSeleccion(j.jugadores, j.cartasEnBatalla),
                                                   cartasEnBatalla := [], atributoActual := None)]
      else
        && r.value == Empate(nuevo)
        && db.manos == old(db.manos)
        && db.juegos == old(db.juegos)[codigo := j.(atributoActual := Some(nuevo))]
  {
    var e := RechazoResolver(db.juegos, db.catalogo, codigo);
    if e.Some? {
      return Err(e.value);
    }
    var juego := db.juegos[codigo];
    var atributo := juego.atributoActual.value;
    var jugadas := juego.cartasEnBatalla;
    var valores := Valores(db.catalogo, jugadas, atributo);
    var ganadores := Ganadores(valores);
    if |ganadores| == 1 {
      var ganador := ganadores[0].jugadorId;
      var manos := Entregar(db.manos, ganador, CartasDe(valores));
      var jugadores;
      manos, jugadores := QuitarPerdedores(manos, juego.jugadores, jugadas, ganador);
      db.manos := manos;
      db.juegos := db.juegos[codigo := juego.(jugadores := jugadores, cartasEnBatalla := [], atributoActual := None)];
      r := Ok(Gana(ganador));
    } else {
      db.juegos := db.juegos[codigo := juego.(atributoActual := Some(nuevo))];
      r := Ok(Empate(nuevo));
    }
  }
}
