# Card-battle match engine in Dafny

This project models the match engine of a multiplayer card-battle backend. A match
(`Juego`) is identified by a code. Its state is:

- a phase: `esperando`, then `seleccionando`, then `jugando`, then `finalizado`;
- a roster of player entries. Each entry has the player, the cards it selected for play (`selectedCards`) and an `activo` flag;
- the cards played in the current round (`cartasEnBatalla`);
- the index of the player whose turn it is (`turnoIdx`);
- the HTTP flow's current attribute (`atributoActual`).

Every player owns a hand of card ids. The same id may appear more than once in a hand.
Every card in the catalog has four numeric attributes: `fuerza`, `velocidad`, `inteligencia` and `rareza`.

The three stored collections become one `Partida.Db` object. It holds the match map,
the hand map and the read-only catalog. Each handler is a method that takes the `Db`.
It runs the handler's guards in the handler's order. It either refuses with an
`Error` and changes nothing, or it performs the handler's updates as one atomic step.
Each guard chain is also a function `Rechazo…`. Its contract states, in both
directions, exactly which inputs it accepts.

Modules follow the source files:

- `Util`, `Cartas`, `Partida`: the records, the roster lookup (`find`), the active count, and the `$pull`/`filter` and `splice` list operations.
- `Ronda`: what both resolution flows share: valuing the played cards, the maximum, and the winners.
- `Socket` (`src/socket.js`): the real-time flow.
  - Join deals ten cards to an empty hand and rejoins are idempotent.
  - The host starts the match.
  - Card selection starts play once every active entry has selected.
  - Cards are played in turn order, and the round-robin turn search is a `while` loop.
  - The round resolves automatically once the battle holds at least as many plays as there are active entries. After a tie the plays stay in the battle and the turn does not move, so the next play resolves the round again.
  - A player can forfeit; the match ends when one active player remains.
- `GameRoutes` (`src/routes/game.js`): the HTTP flow.
  - The turn holder names the attribute.
  - Each player plays once per round, in any order.
  - An explicit call resolves the round.
- `JuegoController` (`src/controllers/juegoController.js`): create, join and finish.

Neither resolution flow conserves cards:

- In the real-time flow, modelled as written, every played card is pushed to the winner. Then every play is `$pull`ed from its own player's hand, which removes all copies. The winner's own card therefore leaves the game (`Socket.ManosTrasGanar`, `Socket.RondaPierdeCarta`).
- In the HTTP flow, the model compares ids by value, which is the evident intent of the loser loop. Under that reading one copy is spliced from each loser only, and the winner keeps its own card and also receives a second copy (`GameRoutes.ReparteRonda`, `GameRoutes.RondaDuplicaCarta`). As written the loop removes nothing at all (see "## Left out").

## Model

| member | source | states |
|---|---|---|
| Util.Without | src/socket.js:422-426 | `$pull` removes every occurrence of the pulled cards: the result holds exactly the elements not pulled and is never longer |
| Util.WithoutCuenta | src/socket.js:422-426 | a `$pull` keeps every card it does not pull as many times as it occurred |
| Util.RemoveFirst | src/routes/game.js:131-132 | `findIndex` + `splice(index, 1)`: an absent card leaves the hand as it is; a present one removes exactly one copy (multiset minus one, length minus one) |
| Util.FirstIndex | src/routes/game.js:131 | `findIndex`: none exactly when the card is absent, otherwise the first index holding it |
| Util.WithoutWithout | src/socket.js:422-426 | pulling one set after another equals pulling their union, which is why the per-play pulls of a round equal one pull of everything each player played |
| Cartas.ParseAtributo | src/routes/game.js:8 | an attribute name is accepted exactly when it is one of the four, and it then names exactly one attribute |
| Cartas.Valor | src/socket.js:389 | a card's value for an attribute is the stored number, and 0 when the record lacks the attribute, as `carta.atributos[atributo] \|\| 0` |
| Cartas.Nombre | src/socket.js:299-305 | every attribute has one of the four accepted names |
| Partida.Db.constructor | src/models/Juego.js:5-31 | the stored collections start with no matches and the given hands and catalog |
| Partida.Buscar | src/socket.js:80-82 | `jugadores.find` by player id: the first entry with that id, or none exactly when no entry has it |
| Partida.Activos | src/socket.js:331 | the number of active entries is at most the roster length and is zero exactly when no entry is active |
| Partida.ActivosDesactivar | src/socket.js:566-581 | clearing one entry's `activo` lowers the active count by one exactly when it was set, and leaves it unchanged otherwise |
| Partida.FiltroActivos | src/socket.js:209-210 | `filter(j => j.activo)` keeps exactly the active entries, and its length is the active count |
| Partida.TodosSeleccionaronFiltro | src/socket.js:209-213 | every active entry holds `playCount` cards exactly when every entry of the filtered list does, as the `filter(...).every(...)` check |
| Partida.JugadasPrefijo | src/socket.js:422-426 | one more play adds its card to the cards its own player played and to no other player's |
| Ronda.Valores | src/socket.js:379-392 | the valuation never yields more values than plays |
| Ronda.ValoresMiembro | src/socket.js:379-392 | a value is in the round exactly when some play's card is in the catalog and the value carries that play's player, card and attribute value (0 when the card lacks the attribute) |
| Ronda.ValoresPuntual | src/routes/game.js:110-117 | with every played card in the catalog, the values match the plays one to one, in order |
| Ronda.MaxValor | src/routes/game.js:119 | `Math.max` of the values: attained by some play and no play exceeds it |
| Ronda.ConValor | src/routes/game.js:120 | the filter keeps exactly the plays with the given value |
| Ronda.Ganadores | src/socket.js:400-401 | the winners are exactly the valued plays at the maximum; an empty round has none |
| Ronda.CartasDe | src/socket.js:410 | the won cards list, in order, the card of each valued play |
| Ronda.Entregar | src/socket.js:416-419 | the `$push` appends the won cards after the winner's hand, in order; no other hand changes and no hand is created |
| Ronda.GanadorEstricto | src/socket.js:400-407 | with a unique winner, some valued play is that winner and every other valued play is strictly below it |
| Ronda.GanadorUnico | src/routes/game.js:119-123 | with a unique winner, the winner's value is the maximum and every other play's value is strictly below it |
| Ronda.EmpateSiDosMaximos | src/socket.js:400-407 | a round has no unique winner exactly when nothing was valued or two plays reach the maximum |
| Ronda.ConValorDos | src/routes/game.js:120 | two plays with the same value both survive the filter for it |
| Ronda.DosMaximos | src/socket.js:400-407 | two plays at the maximum leave at least two winners, so the round is a tie |
| Ronda.MaximoUnico | src/socket.js:400-407 | a non-empty round in which no two plays share the maximum has exactly one winner |
| Ronda.GanadorUnicoCuenta | src/routes/game.js:120-122 | with exactly one play at the maximum the filter keeps exactly that play |
| Socket.RechazoUnirse | src/socket.js:26-68 | join is accepted exactly when the code and player exist, the roster has room or already holds the player, the match is waiting, and an empty hand can be dealt from a catalog of at least ten cards; the refusals come in that order: unknown code, unknown player, full roster, already started, too small a catalog |
| Socket.UnirseJuego | src/socket.js:13-136 | refusals change nothing; an empty hand becomes ten distinct catalog cards and a non-empty hand is untouched; a new player is appended once as active with no selection, a returning one only becomes active again; no roster entry is duplicated and the player is on the roster afterwards |
| Socket.RechazoSeleccion | src/socket.js:153-192 | selection is accepted exactly when the match exists, the card count equals `playCount`, the player exists, every card is in its hand and it is on the roster |
| Socket.SeleccionarCartas | src/socket.js:141-233 | refusals change nothing; the player's entry gets the selection; the match is `jugando` afterwards exactly when it was, or was selecting and every active entry holds `playCount` cards; no other phase change |
| Socket.SiguienteTurno | src/socket.js:336-349 | the next turn is a roster index; when some entry is active it is the first active entry after the current one going round the roster, otherwise the entry right after the current one |
| Socket.CalcularValores | src/socket.js:379-392 | the valuation loop computes `Ronda.Valores` |
| Socket.RetiradasPaso | src/socket.js:422-426 | one more `$pull` in the loop is one more removal of that play's card from its own player's hand |
| Socket.RetiradasClave | src/socket.js:422-426 | one more `$pull` changes only the hand of that play's player |
| Socket.PullJugadas | src/socket.js:422-426 | the `$pull` loop leaves every hand without any copy of the cards its player played |
| Socket.Veredicto | src/socket.js:394-407 | the round is void exactly when no played card is valued; a winner is the player of a valued play strictly above every other valued play; a tie has two valued plays at the maximum; resolving never yields a turn |
| Socket.ManosTrasGanar | src/socket.js:416-426 | after a won round no player with a record keeps any copy of a card it played, the winner included; the winner holds exactly its old cards and the valued cards minus its own plays, and of every card it did not play it holds its old copies plus the pushed ones; other players keep every copy of cards they did not play; players without a play keep their hands |
| Socket.RondaPierdeCarta | src/socket.js:416-426 | a concrete round (card 10 at fuerza 5 beats card 20 at fuerza 3) after which card 10 is in no hand |
| Socket.RetiradasEjemplo | src/socket.js:422-426 | the pulls of that concrete round leave player 1 with card 20 and player 2 with nothing |
| Socket.ResolverRonda | src/socket.js:371-465 | no values or a tie change nothing; a unique winner receives every valued card, then each play is pulled from its own player, the battle is cleared, and the match ends exactly when the winner holds at least 70% of the catalog |
| Socket.RechazoJugar | src/socket.js:243-309 | a play is accepted exactly when an attribute is given, the match exists and is `jugando`, the turn index is valid and names the caller, the card is in the caller's selection, and the attribute is one of the four |
| Socket.TrasJugar | src/socket.js:312-317 | an accepted play removes the card from the caller's selection and appends exactly one play; phase, turn, sizes, attribute and winner are unchanged and the roster keeps its length |
| Socket.TrasJugarResto | src/socket.js:312-317 | the play changes no other roster entry, and in the caller's entry only drops every copy of the card from the selection |
| Socket.JugarCarta | src/socket.js:238-366 | refusals change nothing; when the battle reaches the active count the round resolves as `ResolverRonda` states, otherwise the turn moves to the next active entry and nothing else changes |
| Socket.RechazoIniciar | src/socket.js:497-518 | start is accepted exactly when the match exists, has at least two entries, and the caller is the first entry |
| Socket.IniciarJuego | src/socket.js:490-539 | refusals change nothing; otherwise only the phase changes, to `seleccionando` |
| Socket.RechazoRendirse | src/socket.js:548-564 | forfeit is accepted exactly when the match exists and the caller is on its roster |
| Socket.Rendirse | src/socket.js:544-603 | refusals change nothing; the caller's entry becomes inactive; the match ends exactly when one active entry remains, and the active count drops by one when the caller was active |
| GameRoutes.RechazoAtributo | src/routes/game.js:18-33 | attribute choice is accepted exactly when the match is `jugando`, the turn index is valid and names the caller, and the attribute is one of the four |
| GameRoutes.SeleccionarAtributo | src/routes/game.js:11-47 | refusals change nothing; otherwise only `atributoActual` changes, to the named attribute |
| GameRoutes.RechazoJugar | src/routes/game.js:57-73 | a play is accepted exactly when the match is `jugando`, the caller has no play in the round, is on the roster, and selected the card |
| GameRoutes.JugarCarta | src/routes/game.js:50-88 | refusals change nothing; otherwise exactly one play with the current attribute is appended, and one play per player is preserved |
| GameRoutes.Despojadas | src/routes/game.js:127-134 | the losers' splices keep the set of players with hands and never touch the winner's hand |
| GameRoutes.DespojadasSinJugada | src/routes/game.js:127-134 | a player without a play in the round keeps its hand |
| GameRoutes.DespojadasUnaVez | src/routes/game.js:127-134 | with one play per player, each loser with a record loses exactly one copy of its played card |
| GameRoutes.BuscarMismosIds | src/routes/game.js:136 | `find` by id gives the same entry on two rosters with the same ids |
| GameRoutes.Quitar | src/routes/game.js:136-137 | the entry `find` returns drops every copy of the card from its selection; ids, flags and every other entry are unchanged |
| GameRoutes.SinSeleccionPaso | src/routes/game.js:136-137 | one more loop step removes that play's card from its player's entry |
| GameRoutes.EntradaSinPaso | src/routes/game.js:136-137 | one more loop step changes one entry only when `find` returns it for that play's player |
| GameRoutes.QuitarPerdedores | src/routes/game.js:127-138 | the losers' loop splices one copy from each loser's hand and drops the played cards from the roster selections |
| GameRoutes.ReparteRonda | src/routes/game.js:122-134 | with one play per player and every card known, the winner's hand gains every played card, its own included, in play order; each loser with a record loses exactly one copy of its card; other hands are untouched |
| GameRoutes.RondaDuplicaCarta | src/routes/game.js:126-133 | a concrete round (card 10 at fuerza 5 beats card 20 at fuerza 3) after which the winner holds card 10 twice |
| GameRoutes.RechazoResolver | src/routes/game.js:98-117 | resolution is accepted exactly when the match is `jugando`, an attribute is set, the plays reach the active count, and every played card is in the catalog |
| GameRoutes.ResolverRonda | src/routes/game.js:91-164 | refusals change nothing; a unique winner gets every played card, losers are spliced, the battle and the attribute are cleared; a tie (or no plays) changes no hand, keeps the battle and sets the new attribute |
| JuegoController.NuevoJuego | src/controllers/juegoController.js:7-17 | a new match waits for players with an empty roster and battle and turn index 0; sizes default to 6 players and 4 cards |
| JuegoController.NuevoJuegoAdmite | src/controllers/juegoController.js:9-17 | a freshly created match with room admits any known player through the real-time join when a hand can be dealt |
| JuegoController.CrearJuego | src/controllers/juegoController.js:5-24 | an unused code stores the new match; a code in use is refused with nothing changed |
| JuegoController.ConJugador | src/controllers/juegoController.js:65-71 | the player is on the roster afterwards; a present player leaves it unchanged; otherwise exactly one active entry with no selection is appended; no entry is duplicated |
| JuegoController.ConJugadorIdempotente | src/controllers/juegoController.js:65-68 | joining twice is the same as joining once |
| JuegoController.RechazoUnirse | src/controllers/juegoController.js:57-62 | join is accepted exactly when the id is valid and the match exists; an invalid id is refused first |
| JuegoController.UnirseJuego | src/controllers/juegoController.js:51-79 | refusals change nothing; otherwise the roster becomes `ConJugador` of it, with no capacity or phase check |
| JuegoController.FinalizarJuego | src/controllers/juegoController.js:81-97 | an unknown code is refused with nothing changed; otherwise the match becomes `finalizado` with the given winner, whatever its phase |

## Left out

- Socket emits, console logging, Mongoose sessions and transactions: each handler is one atomic step. The `disconnect` handler does nothing and is not modelled.
- Randomness is a parameter:
  - the shuffled deck `barajadas` is any permutation of the catalog;
  - the tie attribute `nuevo` is any of the four;
  - the match code is chosen by the caller; a code already in use is refused with `CodigoRepetido`.
- Identifiers are integers, and the model compares them by value throughout. It does not capture the ObjectId-versus-string comparisons of the HTTP resolution, which as written make its loser loop do nothing:
  - `src/routes/game.js:131` compares `c.toString()`, a string, with `v.cartaId`, an ObjectId, so `findIndex` is always -1 and no loser loses a card;
  - `src/routes/game.js:136` compares `j.jugadorId.toString()` with `v.jugadorId` in the same way, so no roster entry is found and no selection is filtered;
  - `src/routes/game.js:128` compares ObjectIds by identity; the winner's own entry is the same object, so it matches by value except for a player with two plays.

  As written, a won HTTP round therefore only pushes every played card to the winner and clears the battle. `GameRoutes.ReparteRonda`, `GameRoutes.QuitarPerdedores` and `GameRoutes.ResolverRonda` state the by-value behaviour instead.
- Card attributes are JavaScript numbers (`src/models/Carta.js:7-12`); the model uses unbounded integers. This does not change which play holds the maximum or which plays tie, for integer values.
- Request fields that can be absent: only these absences are modelled:
  - the empty attribute string in the real-time play;
  - an absent or invalid player id in the REST join;
  - absent sizes and winner in the REST create and finish.

  The other absent-field checks reject before any state is read.
- `fechaFin` and the player's `eliminado` flag are not modelled: nothing reads them.
- `Socket.ResolverRonda`: the 70% threshold `mano.length >= total * 0.7` is the integer comparison `10 * n >= 7 * total`. A winner with no player record ends nothing, where the source throws after the commit.
- `atributoActual` and `ganadorId` are stored as written. The match schema in `src/models/Juego.js` does not declare them, and Mongoose's strict mode would drop them on save.
- `GameRoutes.ResolverRonda`:
  - the losers' loop walks the plays rather than the valued list; with every card known the two hold the same players and cards in the same order;
  - the per-loser splice compares player ids by value, so a player with two plays in one round would lose one copy per play.
  - it splices losers' hands and filters selections by id value, where the string-versus-ObjectId comparisons as written match nothing (see the identifier line above).
- A betting variant, a round counter and win counters do not appear in the core files and are not modelled.
- The CRUD controllers, route wiring, `src/index.js` and `src/database.js` are not part of this model.
