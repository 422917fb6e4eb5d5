/** The card catalog: each card carries four numeric attributes, and a round is
    fought over one attribute named by a string from a fixed list of four. */
module Cartas {
  import opened Util

  type CardId = int

  datatype Atributo = Fuerza | Velocidad | Inteligencia | Rareza

  /** The attribute names a client may send, in the order the handlers list them. */
  const Nombres: seq<string> := ["fuerza", "velocidad", "inteligencia", "rareza"]

  function Nombre(a: Atributo): (s: string)
    ensures s in Nombres
  {
    match a
    case Fuerza => "fuerza"
    case Velocidad => "velocidad"
    case Inteligencia => "inteligencia"
    case Rareza => "rareza"
  }

  /** The `atributosValidos.includes(atributo)` check: a name is accepted exactly
      when it is one of the four, and then it names exactly one attribute. */
  function ParseAtributo(s: string): (r: Option<Atributo>)
    ensures r.Some? <==> s in Nombres
    ensures r.Some? ==> Nombre(r.value) == s
  {
    if s == "fuerza" then Some(Fuerza)
    else if s == "velocidad" then Some(Velocidad)
    else if s == "inteligencia" then Some(Inteligencia)
    else if s == "rareza" then Some(Rareza)
    else None
  }

  /** A card's attribute values; an attribute absent from the record reads as 0,
      as `carta.atributos[atributo] || 0` does. */
  datatype Carta = Carta(atributos: map<Atributo, int>)

  function Valor(c: Carta, a: Atributo): (v: int)
    ensures a in c.atributos ==> v == c.atributos[a]
    ensures a !in c.atributos ==> v == 0
  {
    if a in c.atributos then c.atributos[a] else 0
  }

  type Catalogo = map<CardId, Carta>

  /** `barajadas` is a shuffle of the whole catalog: every card id exactly once. */
  ghost predicate Barajado(barajadas: seq<CardId>, catalogo: Catalogo)
  {
    && |barajadas| == |catalogo|
    && (forall i :: 0 <= i < |barajadas| ==> barajadas[i] in catalogo)
    && Distintas(barajadas)
  }

  ghost predicate Distintas(s: seq<CardId>)
  {
    forall i, j :: 0 <= i < j < |s| ==> s[i] != s[j]
  }
}
