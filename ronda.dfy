/** Valuing the cards of a round and picking the winner: both round flows read each
    played card's value for one attribute, take the maximum and keep the plays
    that reach it; a round has a winner only when exactly one play does. */
module Ronda {
  import opened Cartas
  import opened Partida

  /** One play with the value its card has for the round's attribute. */
  datatype Valorada = Valorada(jugadorId: PlayerId, cartaId: CardId, valor: int)

  /** The plays of the round, in order, valued for `a`; a play whose card is not in
      the catalog is skipped. */
  function Valores(catalogo: Catalogo, jugadas: seq<Jugada>, a: Atributo): (vs: seq<Valorada>)
    ensures |vs| <= |jugadas|
  {
    if jugadas == [] then []
    else
      var n := |jugadas| - 1;
      var j := jugadas[n];
      var previas := Valores(catalogo, jugadas[..n], a);
      if j.cartaId in catalogo then previas + [Valorada(j.jugadorId, j.cartaId, Valor(catalogo[j.cartaId], a))]
      else previas
  }

  /** A value is in the round exactly when some play of a catalog card carries it. */
  lemma {:induction false} ValoresMiembro(catalogo: Catalogo, jugadas: seq<Jugada>, a: Atributo)
    ensures forall v :: v in Valores(catalogo, jugadas, a) <==>
      exists i :: 0 <= i < |jugadas| && jugadas[i].cartaId in catalogo &&
        v == Valorada(jugadas[i].jugadorId, jugadas[i].cartaId, Valor(catalogo[jugadas[i].cartaId], a))
  {
    if jugadas != [] {
      var n := |jugadas| - 1;
      var previas := jugadas[..n];
      ValoresMiembro(catalogo, previas, a);
      assert forall i :: 0 <= i < n ==> previas[i] == jugadas[i];
    }
  }

  /** With every card in the catalog, the values match the plays one to one. */
  lemma {:induction false} ValoresPuntual(catalogo: Catalogo, jugadas: seq<Jugada>, a: Atributo)
    requires forall i :: 0 <= i < |jugadas| ==> jugadas[i].cartaId in catalogo
    ensures |Valores(catalogo, jugadas, a)| == |jugadas|
    ensures forall i :: 0 <= i < |jugadas| ==>
      Valores(catalogo, jugadas, a)[i] == Valorada(jugadas[i].jugadorId, jugadas[i].cartaId, Valor(catalogo[jugadas[i].cartaId], a))
  {
    if jugadas != [] {
      var n := |jugadas| - 1;
      var previas := jugadas[..n];
      assert forall i :: 0 <= i < n ==> previas[i] == jugadas[i];
      ValoresPuntual(catalogo, previas, a);
    }
  }

  /** `Math.max(...valores.map(v => v.valor))` on a non-empty round. */
  function MaxValor(vs: seq<Valorada>): (m: int)
    requires vs != []
    ensures exists k :: 0 <= k < |vs| && vs[k].valor == m
    ensures forall k :: 0 <= k < |vs| ==> vs[k].valor <= m
  {
    if |vs| == 1 then vs[0].valor
    else
      var resto := MaxValor(vs[1..]);
      assert forall k :: 1 <= k < |vs| ==> vs[k] == vs[1..][k - 1];
      if vs[0].valor >= resto then vs[0].valor else resto
  }

  /** `valores.filter(v => v.valor === m)`. */
  function ConValor(vs: seq<Valorada>, m: int): (r: seq<Valorada>)
    ensures |r| <= |vs|
    ensures forall v :: v in r <==> v in vs && v.valor == m
  {
    if vs == [] then []
    else if vs[0].valor == m then [vs[0]] + ConValor(vs[1..], m)
    else ConValor(vs[1..], m)
  }

  /** The plays that reach the maximum; none for an empty round, where the
      maximum of nothing is minus infinity and no value equals it. */
  function Ganadores(vs: seq<Valorada>): (g: seq<Valorada>)
    ensures vs == [] ==> g == []
    ensures vs != [] ==> forall v :: v in g <==> v in vs && v.valor == MaxValor(vs)
  {
    if vs == [] then [] else ConValor(vs, MaxValor(vs))
  }

  /** The card ids of the round, in play order: `valores.map(v => v.cartaId)`. */
  function CartasDe(vs: seq<Valorada>): (r: seq<CardId>)
    ensures |r| == |vs|
    ensures forall k :: 0 <= k < |vs| ==> r[k] == vs[k].cartaId
  {
    seq(|vs|, k requires 0 <= k < |vs| => vs[k].cartaId)
  }

  /** The winner's `$push` of `cartas` onto its hand; a winner with no player
      record gets nothing. */
  function Entregar(manos: map<PlayerId, seq<CardId>>, w: PlayerId, cartas: seq<CardId>): (m: map<PlayerId, seq<CardId>>)
    ensures m.Keys == manos.Keys
    ensures w in manos ==> |m[w]| == |manos[w]| + |cartas| && m[w][..|manos[w]|] == manos[w] && m[w][|manos[w]|..] == cartas
    ensures forall p :: p in manos && p != w ==> m[p] == manos[p]
  {
    if w in manos then manos[w := manos[w] + cartas] else manos
  }

  /** Two distinct plays with value `m` both survive the filter. */
  lemma {:induction false} ConValorDos(vs: seq<Valorada>, m: int, i: nat, j: nat)
    requires i < j < |vs| && vs[i].valor == m && vs[j].valor == m
    ensures |ConValor(vs, m)| >= 2
  {
    if i == 0 {
      assert vs[1..][j - 1] == vs[j];
      assert vs[j] in ConValor(vs[1..], m);
    } else {
      ConValorDos(vs[1..], m, i - 1, j - 1);
    }
  }

  /** The winner of a round with a unique winner: its play holds the maximum, and
      every other play's value is strictly below it. */
  lemma GanadorUnico(vs: seq<Valorada>) returns (w: nat)
    requires |Ganadores(vs)| == 1
    ensures w < |vs| && vs[w] == Ganadores(vs)[0]
    ensures vs[w].valor == MaxValor(vs)
    ensures forall k :: 0 <= k < |vs| ==> vs[k].valor <= vs[w].valor
    ensures forall k :: 0 <= k < |vs| && k != w ==> vs[k].valor < vs[w].valor
  {
    var m := MaxValor(vs);
    var g := Ganadores(vs)[0];
    assert g in ConValor(vs, m);
    w :| w < |vs| && vs[w] == g;
    forall k | 0 <= k < |vs| && k != w
      ensures vs[k].valor < m
    {
      if vs[k].valor == m {
        if k < w { ConValorDos(vs, m, k, w); } else { ConValorDos(vs, m, w, k); }
      }
    }
  }

  /** The unique winner's play, as an existence fact usable inside expressions. */
  lemma GanadorEstricto(vs: seq<Valorada>)
    requires |Ganadores(vs)| == 1
    ensures exists k :: 0 <= k < |vs| && vs[k] == Ganadores(vs)[0] &&
                        forall i :: 0 <= i < |vs| && i != k ==> vs[i].valor < vs[k].valor
  {
    var w := GanadorUnico(vs);
  }

  /** A round is a tie exactly when at least two plays reach the maximum (or
      nothing was valued at all). */
  lemma {:induction false} EmpateSiDosMaximos(vs: seq<Valorada>)
    ensures |Ganadores(vs)| != 1 <==>
      vs == [] || exists i, j :: 0 <= i < j < |vs| && vs[i].valor == MaxValor(vs) && vs[j].valor == MaxValor(vs)
  {
    if vs != [] {
      if exists i, j :: 0 <= i < j < |vs| && vs[i].valor == MaxValor(vs) && vs[j].valor == MaxValor(vs) {
        var i, j :| 0 <= i < j < |vs| && vs[i].valor == MaxValor(vs) && vs[j].valor == MaxValor(vs);
        DosMaximos(vs, i, j);
      } else {
        MaximoUnico(vs);
      }
    }
  }

  /** Two plays at the maximum leave at least two winners. */
  lemma DosMaximos(vs: seq<Valorada>, i: nat, j: nat)
    requires i < j < |vs| && vs[i].valor == MaxValor(vs) && vs[j].valor == MaxValor(vs)
    ensures |Ganadores(vs)| >= 2
  {
    ConValorDos(vs, MaxValor(vs), i, j);
  }

  /** A non-empty round in which no two plays share the maximum has a unique winner. */
  lemma MaximoUnico(vs: seq<Valorada>)
    requires vs != []
    requires forall i, j :: 0 <= i < j < |vs| ==> vs[i].valor != MaxValor(vs) || vs[j].valor != MaxValor(vs)
    ensures |Ganadores(vs)| == 1
  {
    var m := MaxValor(vs);
    var k :| 0 <= k < |vs| && vs[k].valor == m;
    assert forall i :: 0 <= i < k ==> vs[i].valor != m;
    assert forall i :: k < i < |vs| ==> vs[i].valor != m;
    GanadorUnicoCuenta(vs, m, k);
  }

  /** With exactly one play at value `m`, the filter keeps exactly that play. */
  lemma {:induction false} GanadorUnicoCuenta(vs: seq<Valorada>, m: int, k: nat)
    requires k < |vs| && vs[k].valor == m
    requires forall i :: 0 <= i < |vs| && i != k ==> vs[i].valor != m
    ensures ConValor(vs, m) == [vs[k]]
  {
    if k == 0 {
      SinValor(vs[1..], m);
    } else {
      assert vs[0].valor != m;
      forall i | 0 <= i < |vs[1..]| && i != k - 1 ensures vs[1..][i].valor != m {
        assert vs[1..][i] == vs[i + 1];
      }
      GanadorUnicoCuenta(vs[1..], m, k - 1);
    }
  }

  lemma {:induction false} SinValor(vs: seq<Valorada>, m: int)
    requires forall i :: 0 <= i < |vs| ==> vs[i].valor != m
    ensures ConValor(vs, m) == []
  {
    if vs != [] {
      SinValor(vs[1..], m);
    }
  }
}
